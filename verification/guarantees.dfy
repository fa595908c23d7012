/** What a caller of the library gets: the invariants of every run of a built, validated model. */
module Guarantees {
  import opened Options
  import opened Paths
  import opened Models
  import opened EventQueue
  import opened Semantics
  import opened Configuration
  import opened History
  import opened DispatchTables
  import opened RunToCompletion
  import opened ProcessLoop
  import opened Records
  import opened Termination
  import opened Validation

  /** However the behaviours, guards and other goroutines act, and whatever is dispatched: the
      machine is at a vertex and every history record is one that resolving it will use. Where every
      transition lands, the states entered and not left are also exactly those on the chain to the
      current element, and every state is entered and left in strict alternation. */
  lemma EveryRun(m: Model, env: Env, fuel: nat, turns: nat, initial: Event, activations: seq<Activation>, p: Path)
    requires Built(m) && Validated(m)
    requires RunToCompletion.Start(m, env, fuel, initial).Some?
    ensures
      var after := Run(m, env, fuel, turns, RunToCompletion.Start(m, env, fuel, initial).value, activations);
      after.Some? ==>
        var (state, w) := (after.value.state, after.value.world);
        && state in m.vertices
        && GoodRecordsAt(m, w.shallow, w.deep, p)
        && (p in w.shallow ==> Recall(w, ShallowHistory, p) == Some(w.shallow[p]))
        && (p in w.deep ==> Recall(w, DeepHistory, p) == Some(w.deep[p]))
        && (Landing(m) ==> ConfigurationAt(m, state, w.trace, p))
  {
    hide Landing, Run, RunToCompletion.Start, Recall, GoodRecordsAt, ConfigurationAt;
    EveryRecordIsUsed(m, env, fuel, turns, initial, activations, p);
    if Landing(m) {
      EveryLandingRun(m, env, fuel, turns, initial, activations, p);
    }
  }

  /** What a state's visits come to, with the machine at `at`. */
  ghost predicate ConfigurationAt(m: Model, at: Path, trace: seq<Act>, p: Path) {
    && Open(trace) == ActiveChain(m, at)
    && (p in Open(trace) <==> HasState(m, p) && p != [] && AtOrAbove(p, at))
    && Alternating(Visits(trace, p))
    && (p in Open(trace) <==> |Visits(trace, p)| % 2 == 1)
  }

  lemma EveryLandingRun(m: Model, env: Env, fuel: nat, turns: nat, initial: Event, activations: seq<Activation>,
          p: Path)
    requires Built(m) && Validated(m) && Landing(m)
    requires RunToCompletion.Start(m, env, fuel, initial).Some?
    ensures
      var after := Run(m, env, fuel, turns, RunToCompletion.Start(m, env, fuel, initial).value, activations);
      after.Some? ==> ConfigurationAt(m, after.value.state, after.value.world.trace, p)
  {
    ValidatedIsWellFormed(m);
    var s := RunToCompletion.Start(m, env, fuel, initial).value;
    var after := Run(m, env, fuel, turns, s, activations);
    hide WellFormed, Run, RunToCompletion.Start, Open, ActiveChain, Visits, Lawful, Built, Validated;
    StartSettles(m, env, fuel, initial);
    RunSettles(m, env, fuel, turns, s, activations);
    if after.Some? {
      ActiveChainMembers(m, after.value.state, p);
      EntriesAndExitsAlternate(m, after.value.world.trace, p);
    }
  }

  // ----- every run returns -----

  /** Enough fuel for any transition of a ranked model. */
  ghost predicate FuelSuffices(m: Model, rank: Ranking, fuel: nat) {
    forall n :: n in m.transitions ==> fuel >= FuelForTarget(m.transitions[n], rank)
  }

  /** A model has finitely many transitions, so some amount of fuel suffices for all of them. */
  lemma SomeFuelSuffices(m: Model, rank: Ranking) returns (fuel: nat)
    ensures FuelSuffices(m, rank, fuel)
  {
    var todo := m.transitions.Keys;
    fuel := 0;
    while todo != {}
      invariant todo <= m.transitions.Keys
      invariant forall n :: n in m.transitions && n !in todo ==> fuel >= FuelForTarget(m.transitions[n], rank)
      decreases |todo|
    {
      var n :| n in todo;
      todo := todo - {n};
      var needed := FuelForTarget(m.transitions[n], rank);
      fuel := if needed > fuel then needed else fuel;
    }
  }

  lemma TryRowReturns(c: Context, rank: Ranking, fuel: nat, s: Machine, ts: seq<Transition>)
    requires Returning(c.model, rank) && FuelSuffices(c.model, rank, fuel)
    requires RecordsGood(c.model, s.world) && Live(c.model, s.state, ts)
    ensures TryRow(c, fuel, s, ts).Tried?
  {
    hide Fire, Ranked, Returning, RecordsGood;
    ChooseFacts(c, s.world, ts);
    var (w, t) := Choose(c, s.world, ts);
    if t.Some? {
      ChooseKeepsRecords(c, s.world, ts);
      FireReturns(c, rank, fuel, w, s.state, t.value);
    }
  }

  lemma ChooseKeepsRecords(c: Context, w: World, ts: seq<Transition>)
    requires RecordsGood(c.model, w)
    ensures RecordsGood(c.model, Choose(c, w, ts).0)
  {
    ChooseFacts(c, w, ts);
  }

  lemma ProcessEventReturns(c: Context, rank: Ranking, fuel: nat, s: Machine)
    requires Returning(c.model, rank) && FuelSuffices(c.model, rank, fuel) && Sound(c.model, s)
    ensures ProcessEvent(c, fuel, s).Handled?
  {
    hide TryRow, Candidates, Ranked, FuelSuffices, Returning, RecordsGood, Nested;
    var m, e := c.model, c.event.name;
    assert Structured(m) && Nested(m) by {
      ReturningIsNested(m, rank);
    }
    var owner := TableOwner(m, s.state, s.state, e);
    CandidatesLive(m, s.state, e, owner);
    CandidatesLive(m, s.state, ANY_EVENT, owner);
    TryRowReturns(c, rank, fuel, s, Candidates(m, s.state, e, owner));
    TryRowKeepsSound(c, fuel, s, Candidates(m, s.state, e, owner));
    var specific := TryRow(c, fuel, s, Candidates(m, s.state, e, owner));
    if specific.taken.None? {
      UntakenRow(c, fuel, s, Candidates(m, s.state, e, owner));
      TryRowReturns(c, rank, fuel, specific.machine, Candidates(m, s.state, ANY_EVENT, owner));
    }
  }

  lemma ReturningIsNested(m: Model, rank: Ranking)
    requires Returning(m, rank)
    ensures Structured(m) && Nested(m)
  {
  }

  lemma IterateReturns(m: Model, env: Env, rank: Ranking, fuel: nat, currentId: string, l: Loop)
    requires Returning(m, rank) && FuelSuffices(m, rank, fuel) && Sound(m, l.machine)
    ensures !Iterate(m, env, fuel, currentId, l).Lost?
  {
    hide ProcessEvent, TableOwner, Sound, Returning, FuelSuffices, PushAll;
    var w := Arrive(env, l.machine.world);
    if !IsEmpty(w.queue) {
      var s := l.machine.(world := w.(queue := Rest(w.queue)));
      QueueKeepsSound(m, l.machine, s);
      ProcessEventReturns(Context(m, env, StripId(Head(w.queue))), rank, fuel, s);
    }
  }

  /** Total correctness of the loop: without pseudostate cycles, a process run either ends within
      the turns the measure allows, or more than `budget` events are raised during it, even if a
      transition strands the machine on the way. */
  lemma {:induction false} EveryRunEnds(
    m: Model, env: Env, rank: Ranking, fuel: nat, turns: nat, currentId: string, l: Loop, budget: nat)
    requires Returning(m, rank) && FuelSuffices(m, rank, fuel) && Sound(m, l.machine)
    requires Rank(l, budget) < turns
    ensures var next := Process(m, env, fuel, turns, currentId, l);
            next.Ended? || (next.Running? && RaisedSince(l, next.loop) > budget)
  {
    ProcessReturns(m, env, rank, fuel, turns, currentId, l);
    ProcessEnds(m, env, fuel, turns, currentId, l, budget);
  }

  lemma {:induction false} ProcessReturns(m: Model, env: Env, rank: Ranking, fuel: nat, turns: nat, currentId: string,
          l: Loop)
    requires Returning(m, rank) && FuelSuffices(m, rank, fuel) && Sound(m, l.machine)
    ensures !Process(m, env, fuel, turns, currentId, l).Lost?
    decreases turns
  {
    hide Iterate, Returning, FuelSuffices, Sound;
    if turns > 0 {
      IterateReturns(m, env, rank, fuel, currentId, l);
      ReturningIsNested(m, rank);
      IterateKeepsSound(m, env, fuel, currentId, l);
      var next := Iterate(m, env, fuel, currentId, l);
      if next.Running? {
        ProcessReturns(m, env, rank, fuel, turns - 1, currentId, next.loop);
      }
    }
  }
}
