/** What one event comes to, said of the event popped, the guards that hold and the model's lists:
    which transition it fires, who puts it aside, and what becomes of the events put aside before. */
module Turns {
  import opened Options
  import opened Paths
  import opened Models
  import opened EventQueue
  import opened Semantics
  import opened DispatchTables
  import opened RunToCompletion
  import opened Selection
  import opened Offers

  // ----- one event, from rest -----

  /** If a transition is offered for the event and stands alone, nobody deferring the event or the
      transition being declared or starting inside whoever does, then the event fires it: also from
      a state nested anywhere below its source. */
  lemma LoneTransitionFires(c: Context, fuel: nat, s: Machine, t: Transition)
    requires WellFormed(c.model) && Steady(c) && Settled(c.model, s)
    requires Offered(c.model, s.state, t, c.event.name) && ValuationOf(c)(t)
    requires forall u :: Offered(c.model, s.state, u, c.event.name) && ValuationOf(c)(u) ==> u == t
    requires forall d :: Innermost(c.model, s.state, c.event.name, d) ==> Within(c.model, t, d)
    ensures var h := ProcessEvent(c, fuel, s);
            h.Handled? ==> h.taken == Some(t) && h.owner.None? && exists n :: Fired(c, fuel, s, t, h.machine, n)
  {
    hide Settled, WellFormed, Offered, Innermost, Within, ProcessEvent, Fired, TableOwner, WalkDecision;
    var m, q, e, enabled := c.model, s.state, c.event.name, ValuationOf(c);
    assert Structured(m) && q in m.vertices by {
      RestingFacts(m, s);
    }
    var owner := TableOwner(m, q, q, e);
    if owner.Some? {
      OwnerExactly(m, q, e, owner.value);
    }
    assert Stands(m, q, t, e, owner, enabled);
    LoneWins(m, q, t, e, owner, enabled);
    DecisionExactly(m, q, e, enabled);
    assert WalkDecision(m, q, e, enabled) == Take(t);
    SettledFollowsWalk(c, fuel, s);
  }

  lemma RestingFacts(m: Model, s: Machine)
    requires WellFormed(m) && Settled(m, s)
    ensures Structured(m) && s.state in m.vertices
  {
  }

  lemma LoneWins(m: Model, q: Path, t: Transition, e: string, owner: Option<Path>, enabled: Valuation)
    requires Structured(m) && q in m.vertices && Stands(m, q, t, e, owner, enabled)
    requires forall u :: Stands(m, q, u, e, owner, enabled) ==> u == t
    ensures Wins(m, q, t, e, owner, enabled)
  {
    hide Structured, Stands, Search, ListedAt;
    SearchFindsStanding(m, q, e, owner, enabled);
    FoundWins(m, q, e, owner, enabled);
  }

  // ----- one turn of the loop -----

  /** The event served next: the newest completion event, or else the oldest other one. */
  predicate Serves(q: Pending, e: Event, rest: Pending) {
    if q.completions != [] then q == Pending(rest.completions + [e], rest.regular)
    else rest.completions == [] && q == Pending([], [e] + rest.regular)
  }

  /** The machine when the event has been popped, other goroutines having pushed theirs. */
  function AtPop(env: Env, s: Machine, rest: Pending): Machine {
    var w := s.world;
    Machine(s.state, w.(queue := rest, raised := w.raised + env.arrive(w.clock), clock := w.clock + 1))
  }

  /** The identifier the runtime may have added is taken off again. */
  predicate Handed(popped: Event, e: Event) {
    e == if "\0hsm:" <= popped.id then popped.(id := "") else popped
  }

  /** `popped` is served this turn, leaving `rest`, and handled as `e`. */
  predicate Turn(env: Env, l: Loop, popped: Event, rest: Pending, e: Event) {
    var w := l.machine.world;
    Serves(PushAll(w.queue, env.arrive(w.clock)), popped, rest) && Handed(popped, e)
  }

  lemma ServedIsHead(q: Pending, e: Event, rest: Pending)
    requires Serves(q, e, rest)
    ensures !IsEmpty(q) && Head(q) == e && Rest(q) == rest
  {
    if q.completions != [] {
      assert q.completions[..|q.completions| - 1] == rest.completions;
    } else {
      assert q.regular[1..] == rest.regular;
    }
  }

  lemma TurnPops(env: Env, l: Loop, popped: Event, rest: Pending, e: Event)
    requires Turn(env, l, popped, rest, e)
    ensures var w := Arrive(env, l.machine.world);
            && !IsEmpty(w.queue) && Head(w.queue) == popped && e == StripId(popped)
            && l.machine.(world := w.(queue := Rest(w.queue))) == AtPop(env, l.machine, rest)
            && e.name == popped.name
  {
    hide PushAll, Serves;
    ServedIsHead(PushAll(l.machine.world.queue, env.arrive(l.machine.world.clock)), popped, rest);
  }

  /** An event other than the one dispatched is put aside at once by the state that defers it: no
      guard is read, nothing runs, and the clock moves with the pop alone. */
  lemma OthersArePutAside(m: Model, env: Env, fuel: nat, currentId: string, l: Loop, popped: Event, rest: Pending,
          e: Event, o: Path)
    requires Turn(env, l, popped, rest, e)
    requires currentId != "" && popped.id != currentId && WalkOwner(m, l.machine.state, popped.name) == Some(o)
    ensures Iterate(m, env, fuel, currentId, l) ==
            Running(Loop(AtPop(env, l.machine, rest), l.deferred + [Deferred(o, e)], l.consumed, l.discarded))
  {
    hide Turn, AtPop, PushAll, WalkOwner, TableOwner, ProcessEvent;
    TurnPops(env, l, popped, rest, e);
    DeferOwnerIsInnermost(m, l.machine.state, popped.name);
  }

  /** The dispatched event, any event when none is singled out, and one that no state defers, is
      handled: with guards that hold still, as the walk decides. */
  lemma OthersAreHandled(m: Model, env: Env, fuel: nat, currentId: string, l: Loop, popped: Event, rest: Pending,
          e: Event)
    requires Turn(env, l, popped, rest, e) && Steady(Context(m, env, e))
    requires currentId == "" || popped.id == currentId || WalkOwner(m, l.machine.state, popped.name).None?
    ensures var (c, s) := (Context(m, env, e), AtPop(env, l.machine, rest));
            var d := WalkDecision(m, s.state, e.name, ValuationOf(c));
            var next := Iterate(m, env, fuel, currentId, l);
            next.Lost? || Misses(c, fuel, s, d) || (next.Running? && Comes(c, fuel, s, d, l, e, next.loop))
  {
    hide Turn, AtPop, PushAll, WalkOwner, TableOwner, ProcessEvent, WalkDecision, Misses, Fired, OnlyTicked;
    hide Kept, Dropped;
    TurnPops(env, l, popped, rest, e);
    DeferOwnerIsInnermost(m, l.machine.state, popped.name);
    ProcessEventFollowsWalk(Context(m, env, e), fuel, AtPop(env, l.machine, rest));
    AtPopStays(env, l.machine, rest);
  }

  lemma AtPopStays(env: Env, s: Machine, rest: Pending)
    ensures AtPop(env, s, rest).state == s.state && AtPop(env, s, rest).world.trace == s.world.trace
  {
  }

  /** What a handled event leaves. A transition taken ends its handling, and sends the events put
      aside back to the queue, but for those to be discarded. */
  ghost predicate Comes(c: Context, fuel: nat, s: Machine, d: Decision, l: Loop, e: Event, after: Loop) {
    match d
    case Defer(o) =>
      && OnlyTicked(s, after.machine) && after.deferred == l.deferred + [Deferred(o, e)]
      && after.consumed == l.consumed && after.discarded == l.discarded
    case Ignore =>
      && OnlyTicked(s, after.machine) && after.deferred == l.deferred
      && after.consumed == l.consumed + [e] && after.discarded == l.discarded
    case Take(t) =>
      && after.deferred == [] && after.consumed == l.consumed + [e]
      && exists machine, n ::
           && Fired(c, fuel, s, t, machine, n)
           && (if l.deferred == [] then after.machine == machine && after.discarded == l.discarded
               else
                 && after.machine == PushEvents(machine, Kept(c.model, machine.state, Some(t.source), l.deferred))
                 && after.discarded == l.discarded + Dropped(c.model, machine.state, Some(t.source), l.deferred))
  }

  // ----- the events put aside -----

  /** Every event put aside is either kept or discarded, each by itself and in its place. */
  lemma {:induction false} EachByItself(m: Model, active: Path, source: Option<Path>, ds: seq<Deferred>, i: nat)
    requires i < |ds|
    ensures var gone := Discards(m, active, source, ds[i]);
            && Kept(m, active, source, ds) == Kept(m, active, source, ds[..i])
               + (if gone then [] else [ds[i].event]) + Kept(m, active, source, ds[i + 1..])
            && Dropped(m, active, source, ds) == Dropped(m, active, source, ds[..i])
               + (if gone then [ds[i].event] else []) + Dropped(m, active, source, ds[i + 1..])
    decreases ds
  {
    hide Discards, Kept, Dropped;
    OneOff(m, active, source, ds);
    OneOff(m, active, source, ds[..i]);
    if i > 0 {
      EachByItself(m, active, source, ds[1..], i - 1);
      assert ds[..i][1..] == ds[1..][..i - 1] && ds[1..][i..] == ds[i + 1..];
    }
  }

  lemma OneOff(m: Model, active: Path, source: Option<Path>, ds: seq<Deferred>)
    ensures ds == [] ==> Kept(m, active, source, ds) == [] && Dropped(m, active, source, ds) == []
    ensures ds != [] ==>
              var gone := Discards(m, active, source, ds[0]);
              && Kept(m, active, source, ds)
                 == (if gone then [] else [ds[0].event]) + Kept(m, active, source, ds[1..])
              && Dropped(m, active, source, ds)
                 == (if gone then [ds[0].event] else []) + Dropped(m, active, source, ds[1..])
  {
  }

  /** `b` is the innermost submachine state strictly above `p`, the root excepted. */
  ghost predicate AroundIt(m: Model, p: Path, b: Path) {
    && IsSubmachine(m, b) && IsAncestor(b, p)
    && forall o :: IsSubmachine(m, o) && IsAncestor(o, p) ==> AtOrAbove(o, b)
  }

  predicate IsSubmachine(m: Model, b: Path) {
    b in m.vertices && b != m.root && m.vertices[b].kind.Submachine?
  }

  lemma {:induction false} EnclosingExactly(m: Model, p: Path)
    requires Nested(m) && AtOrAbove(m.root, p)
    ensures var b := Enclosing(m, p);
            && (b.Some? ==> IsSubmachine(m, b.value) && AtOrAbove(b.value, p)
                            && forall o :: IsSubmachine(m, o) && AtOrAbove(o, p) ==> AtOrAbove(o, b.value))
            && (b.None? ==> forall o :: IsSubmachine(m, o) ==> !AtOrAbove(o, p))
    decreases |p|
  {
    forall o | IsSubmachine(m, o) && AtOrAbove(o, p)
      ensures |o| > |m.root|
    {
      assert Owned(m, o);
    }
    if p != m.root && !IsSubmachine(m, p) {
      EnclosingExactly(m, Dir(p));
      forall o | IsSubmachine(m, o)
        ensures AtOrAbove(o, p) <==> AtOrAbove(o, Dir(p))
      {
        if AtOrAbove(o, p) {
          UpOne(o, p);
        }
      }
    }
  }

  /** An event put aside is discarded exactly when there is a submachine state around the state that
      deferred it, and the machine is in the innermost one no more, by a transition that did not
      start strictly inside it. */
  lemma DiscardedExactly(m: Model, active: Path, source: Option<Path>, d: Deferred)
    requires Nested(m) && IsAncestor(m.root, d.owner)
    ensures Discards(m, active, source, d) <==>
            exists b :: AroundIt(m, d.owner, b) && !AtOrAbove(b, active)
                        && (source.Some? ==> !IsAncestor(b, source.value))
  {
    EnclosingExactly(m, Dir(d.owner));
    forall o: Path
      ensures AtOrAbove(o, Dir(d.owner)) <==> IsAncestor(o, d.owner)
    {
      if IsAncestor(o, d.owner) {
        assert Dir(d.owner)[..|o|] == d.owner[..|o|];
      }
    }
    var b := Enclosing(m, Dir(d.owner));
    if b.Some? {
      assert AroundIt(m, d.owner, b.value);
      forall o | AroundIt(m, d.owner, o)
        ensures o == b.value
      {
        assert AtOrAbove(o, b.value) && AtOrAbove(b.value, o);
      }
    }
  }
}
