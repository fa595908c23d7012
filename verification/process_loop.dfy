/** What the process loop promises about events: none is lost or invented, few are discarded,
    and the loop ends. */
module ProcessLoop {
  import opened Options
  import opened Paths
  import opened Models
  import opened EventQueue
  import opened Semantics
  import opened DispatchTables
  import opened Conservation
  import opened RunToCompletion

  // ----- accounting for one event -----

  lemma {:induction false} ChooseBalanced(c: Context, w: World, ts: seq<Transition>)
    ensures Balanced(w, Choose(c, w, ts).0)
    decreases ts
  {
    if ts != [] {
      ChooseBalanced(c, Enabled(c, w, ts[0]).0, ts[1..]);
    }
  }

  ghost predicate AttemptBalanced(w: World, a: Attempt) {
    match a
    case OutOfFuel => true
    case Tried(after, _) => Balanced(w, after.world)
  }

  lemma TryRowBalanced(c: Context, fuel: nat, s: Machine, ts: seq<Transition>)
    ensures AttemptBalanced(s.world, TryRow(c, fuel, s, ts))
  {
    hide Fire, Bag, Size;
    ChooseBalanced(c, s.world, ts);
    var (w, t) := Choose(c, s.world, ts);
    if t.Some? {
      FireBalanced(c, fuel, w, s.state, t.value);
      BalancedFrom(s.world, w, Fire(c, fuel, w, s.state, t.value));
    }
  }

  lemma ProcessEventBalanced(c: Context, fuel: nat, s: Machine)
    ensures var h := ProcessEvent(c, fuel, s); h.Handled? ==> Balanced(s.world, h.machine.world)
  {
    hide TryRow, Candidates, Balanced, TableOwner;
    var m, e := c.model, c.event.name;
    var owner := TableOwner(m, s.state, s.state, e);
    TryRowBalanced(c, fuel, s, Candidates(m, s.state, e, owner));
    var specific := TryRow(c, fuel, s, Candidates(m, s.state, e, owner));
    if specific.Tried? && specific.taken.None? {
      var any := Candidates(m, s.state, ANY_EVENT, owner);
      TryRowBalanced(c, fuel, specific.machine, any);
      if TryRow(c, fuel, specific.machine, any).Tried? {
        BalancedTransitive(s.world, specific.machine.world, TryRow(c, fuel, specific.machine, any).machine.world);
      }
    }
  }

  // ----- accounting for the loop -----

  lemma {:induction false} KeptAndDropped(m: Model, active: Path, source: Option<Path>, ds: seq<Deferred>)
    ensures Bag(Kept(m, active, source, ds)) + Bag(Dropped(m, active, source, ds)) == Bag(Events(ds))
    ensures |Kept(m, active, source, ds)| <= |ds|
    decreases ds
  {
    hide Bag, Discards, Events;
    if ds == [] {
      BagOfNone();
    } else {
      KeptAndDropped(m, active, source, ds[1..]);
      EventsCons(ds);
      var d := ds[0].event;
      var kept, dropped := Kept(m, active, source, ds[1..]), Dropped(m, active, source, ds[1..]);
      BagOfConcat([d], Events(ds[1..]));
      BagOfConcat([d], kept);
      BagOfConcat([d], dropped);
      if Discards(m, active, source, ds[0]) {
        assert Kept(m, active, source, ds) == [] + kept == kept;
      } else {
        assert Dropped(m, active, source, ds) == [] + dropped == dropped;
      }
    }
  }

  lemma {:induction false} EventsCons(ds: seq<Deferred>)
    requires ds != []
    ensures Events(ds) == [ds[0].event] + Events(ds[1..])
    decreases ds
  {
    if |ds| > 1 {
      EventsCons(ds[..|ds| - 1]);
      assert ds[..|ds| - 1][1..] == ds[1..][..|ds| - 2];
    }
  }

  /** Everything the loop is answerable for. */
  function Account(l: Loop): multiset<Event> {
    QueueBag(l.machine.world.queue) + Bag(Events(l.deferred)) + Bag(l.consumed) + Bag(l.discarded)
  }

  /** Nothing appears or disappears except by being raised. */
  ghost predicate Conserves(before: Loop, after: Loop) {
    && Account(after) + Bag(before.machine.world.raised) == Account(before) + Bag(after.machine.world.raised)
    && |before.machine.world.raised| <= |after.machine.world.raised|
  }

  /** At the end the deferred events have been pushed, so they count once, as queued. */
  function FinalAccount(l: Loop): multiset<Event> {
    QueueBag(l.machine.world.queue) + Bag(l.consumed) + Bag(l.discarded)
  }

  ghost predicate ProgressConserves(before: Loop, next: Progress) {
    match next
    case Lost => true
    case Running(after) => Conserves(before, after)
    case Ended(after) =>
      FinalAccount(after) + Bag(before.machine.world.raised) == Account(before) + Bag(after.machine.world.raised)
  }

  lemma ArriveBalanced(env: Env, w: World)
    ensures Balanced(w, Arrive(env, w))
  {
    RaisingBalanced(w, env.arrive(w.clock), Arrive(env, w));
  }

  lemma BagOfOne(e: Event)
    ensures Bag([e]) == multiset{Anonymous(e)} && Anonymous(StripId(e)) == Anonymous(e)
  {
    assert [e][..0] == [];
  }

  /** `e` has been popped from `l`'s queue and the machine has become `s`. */
  ghost predicate PoppedInto(l: Loop, e: Event, s: Machine) {
    && QueueBag(s.world.queue) + multiset{Anonymous(e)} + Bag(l.machine.world.raised)
       == QueueBag(l.machine.world.queue) + Bag(s.world.raised)
    && |l.machine.world.raised| <= |s.world.raised|
  }

  lemma PopFromArrived(env: Env, l: Loop)
    requires !IsEmpty(Arrive(env, l.machine.world).queue)
    ensures var w := Arrive(env, l.machine.world);
            PoppedInto(l, StripId(Head(w.queue)), l.machine.(world := w.(queue := Rest(w.queue))))
  {
    hide Bag, QueueBag;
    ArriveBalanced(env, l.machine.world);
    var w := Arrive(env, l.machine.world);
    PopBag(w.queue);
    BagOfOne(Head(w.queue));
  }

  lemma ProcessedPop(l: Loop, e: Event, s: Machine, after: Machine)
    requires PoppedInto(l, e, s) && Balanced(s.world, after.world)
    ensures PoppedInto(l, e, after)
  {
    hide Bag, QueueBag;
    var one := multiset{Anonymous(e)};
    var q, q1, q2 := QueueBag(l.machine.world.queue), QueueBag(s.world.queue), QueueBag(after.world.queue);
    var r, r1, r2 := Bag(l.machine.world.raised), Bag(s.world.raised), Bag(after.world.raised);
    forall x: Event ensures (q2 + one + r)[x] == (q + r2)[x] {
      assert (q1 + one + r)[x] == (q + r1)[x] && (q2 + r1)[x] == (q1 + r2)[x];
    }
  }

  lemma PostponeConserves(l: Loop, s: Machine, owner: Path, e: Event)
    requires PoppedInto(l, e, s)
    ensures Conserves(l, Postpone(l, s, owner, e))
  {
    hide Bag, QueueBag;
    var d := Deferred(owner, e);
    assert (l.deferred + [d])[..|l.deferred|] == l.deferred;
    BagOfConcat(Events(l.deferred), [e]);
    BagOfOne(e);
    var one := multiset{Anonymous(e)};
    var q, r := QueueBag(l.machine.world.queue), Bag(l.machine.world.raised);
    var q1, r1 := QueueBag(s.world.queue), Bag(s.world.raised);
    var ds, rest := Bag(Events(l.deferred)), Bag(l.consumed) + Bag(l.discarded);
    forall x: Event ensures (q1 + (ds + one) + rest + r)[x] == (q + ds + rest + r1)[x] {
      assert (q1 + one + r)[x] == (q + r1)[x];
    }
    var after := Postpone(l, s, owner, e);
    assert Account(after) == q1 + (ds + one) + rest && Account(l) == q + ds + rest;
  }

  lemma ConsumeConserves(m: Model, l: Loop, h: Outcome, e: Event)
    requires h.Handled? && PoppedInto(l, e, h.machine)
    ensures Conserves(l, Consume(m, l, h, e))
  {
    hide Bag, QueueBag, Kept, Dropped, PushAll;
    var after := Consume(m, l, h, e);
    BagOfConcat(l.consumed, [e]);
    BagOfOne(e);
    var one := multiset{Anonymous(e)};
    var q, r := QueueBag(l.machine.world.queue), Bag(l.machine.world.raised);
    var q1, r1 := QueueBag(h.machine.world.queue), Bag(h.machine.world.raised);
    var ds, done, gone := Bag(Events(l.deferred)), Bag(l.consumed), Bag(l.discarded);
    forall x: Event ensures (q1 + ds + (done + one) + gone + r)[x] == (q + ds + done + gone + r1)[x] {
      assert (q1 + one + r)[x] == (q + r1)[x];
    }
    assert q1 + ds + (done + one) + gone + r == q + ds + done + gone + r1;
    if h.taken.Some? && l.deferred != [] {
      var active, source := h.machine.state, Some(h.taken.value.source);
      KeptAndDropped(m, active, source, l.deferred);
      var kept, dropped := Kept(m, active, source, l.deferred), Dropped(m, active, source, l.deferred);
      PushAllBag(h.machine.world.queue, kept);
      BagOfConcat(l.discarded, dropped);
      assert Bag(Events([])) == multiset{} by { BagOfNone(); }
      assert Account(after) == q1 + Bag(kept) + (done + one) + (gone + Bag(dropped));
      assert Account(after) == q1 + ds + (done + one) + gone;
    } else {
      assert Account(after) == q1 + ds + (done + one) + gone;
    }
  }

  lemma BagOfNone()
    ensures Bag([]) == multiset{} && Events([]) == []
  {
  }

  lemma IterateConserves(m: Model, env: Env, fuel: nat, currentId: string, l: Loop)
    ensures ProgressConserves(l, Iterate(m, env, fuel, currentId, l))
  {
    hide Bag, QueueBag, ProcessEvent, TableOwner, PushAll, Size, PoppedInto, Conserves, Consume, Postpone;
    var w := Arrive(env, l.machine.world);
    if IsEmpty(w.queue) {
      EndConserves(env, l);
    } else {
      var popped := Head(w.queue);
      var s := l.machine.(world := w.(queue := Rest(w.queue)));
      var e := StripId(popped);
      PopFromArrived(env, l);
      var quick := QuickOwner(m, currentId, s, popped);
      if quick.Some? {
        PostponeConserves(l, s, quick.value, e);
      } else {
        var h := ProcessEvent(Context(m, env, e), fuel, s);
        ProcessEventBalanced(Context(m, env, e), fuel, s);
        if h.Handled? {
          ProcessedPop(l, e, s, h.machine);
          if h.owner.Some? {
            PostponeConserves(l, h.machine, h.owner.value, e);
          } else {
            ConsumeConserves(m, l, h, e);
          }
        }
      }
    }
  }

  lemma EndConserves(env: Env, l: Loop)
    requires IsEmpty(Arrive(env, l.machine.world).queue)
    ensures var w := Arrive(env, l.machine.world);
            ProgressConserves(l, Ended(l.(machine := PushEvents(l.machine.(world := w), Events(l.deferred)))))
  {
    hide Bag, QueueBag, PushAll;
    var w := Arrive(env, l.machine.world);
    ArriveBalanced(env, l.machine.world);
    PushAllBag(w.queue, Events(l.deferred));
    var q, r, q1, r1 := QueueBag(l.machine.world.queue), Bag(l.machine.world.raised), QueueBag(w.queue), Bag(w.raised);
    var ds, rest := Bag(Events(l.deferred)), Bag(l.consumed) + Bag(l.discarded);
    forall x: Event ensures (q1 + ds + rest + r)[x] == (q + ds + rest + r1)[x] {
      assert (q1 + r)[x] == (q + r1)[x];
    }
    assert q1 + ds + rest == (q1 + ds) + Bag(l.consumed) + Bag(l.discarded);
    assert q + ds + rest == Account(l);
  }

  lemma ConservesFrom(a: Loop, b: Loop, next: Progress)
    requires Conserves(a, b) && ProgressConserves(b, next)
    ensures ProgressConserves(a, next)
  {
    hide Bag, QueueBag;
    var ra, rb, xa, xb := Bag(a.machine.world.raised), Bag(b.machine.world.raised), Account(a), Account(b);
    match next
    case Lost =>
    case Running(c) =>
      var rc, xc := Bag(c.machine.world.raised), Account(c);
      forall x: Event ensures (xc + ra)[x] == (xa + rc)[x] {
        assert (xb + ra)[x] == (xa + rb)[x] && (xc + rb)[x] == (xb + rc)[x];
      }
    case Ended(c) =>
      var rc, xc := Bag(c.machine.world.raised), FinalAccount(c);
      forall x: Event ensures (xc + ra)[x] == (xa + rc)[x] {
        assert (xb + ra)[x] == (xa + rb)[x] && (xc + rb)[x] == (xb + rc)[x];
      }
  }

  /** Run-to-completion conservation: across a process run, what was queued plus what was
      raised is what was consumed, discarded or is queued again at the end. */
  lemma {:induction false} ProcessConserves(m: Model, env: Env, fuel: nat, turns: nat, currentId: string, l: Loop)
    ensures ProgressConserves(l, Process(m, env, fuel, turns, currentId, l))
    decreases turns
  {
    hide Iterate, Bag, QueueBag;
    if turns > 0 {
      IterateConserves(m, env, fuel, currentId, l);
      var next := Iterate(m, env, fuel, currentId, l);
      if next.Running? {
        ProcessConserves(m, env, fuel, turns - 1, currentId, next.loop);
        ConservesFrom(l, next.loop, Process(m, env, fuel, turns - 1, currentId, next.loop));
      }
    }
  }

  /** The current element changes only with a transition taken, and only the state that defers
      the event owns its deferral. */
  lemma UntakenStays(c: Context, fuel: nat, s: Machine)
    ensures var h := ProcessEvent(c, fuel, s);
            h.Handled? ==>
              && (h.taken.None? ==> h.machine.state == s.state)
              && (h.owner.Some? ==>
                    h.taken.None? && h.owner == TableOwner(c.model, s.state, s.state, c.event.name))
  {
    hide Fire, Choose, Candidates, TableOwner;
  }

  // ----- discarding -----

  lemma {:induction false} EnclosingFacts(m: Model, p: Path)
    ensures var b := Enclosing(m, p);
            b.Some? ==> AtOrAbove(b.value, p) && b.value in m.vertices && m.vertices[b.value].kind.Submachine?
                        && b.value != m.root
    decreases |p|
  {
    if p != [] && Enclosing(m, Dir(p)).Some? {
      EnclosingFacts(m, Dir(p));
    }
  }

  /** A discarded event was deferred strictly inside a submachine state that is no longer
      active, by a transition that did not come from strictly inside it. */
  lemma DiscardsOnlyAfterLeaving(m: Model, active: Path, source: Option<Path>, d: Deferred)
    requires Discards(m, active, source, d)
    ensures exists b :: b in m.vertices && m.vertices[b].kind.Submachine? && b != m.root
                        && IsAncestor(b, d.owner) && !AtOrAbove(b, active)
                        && (source.Some? ==> !IsAncestor(b, source.value))
  {
    EnclosingFacts(m, Dir(d.owner));
    var b := Enclosing(m, Dir(d.owner)).value;
    assert Dir(d.owner)[..|b|] == d.owner[..|b|];
  }

  /** The machine at `active` has left a submachine state around a state that defers the name. */
  ghost predicate Left(m: Model, active: Path, name: string) {
    exists owner, b :: LeftBehind(m, active, name, owner, b)
  }

  predicate LeftBehind(m: Model, active: Path, name: string, owner: Path, b: Path) {
    && Defers(m, owner, name) && IsAncestor(b, owner) && Enclosing(m, Dir(owner)).Some?
    && b in m.vertices && m.vertices[b].kind.Submachine? && b != m.root && !AtOrAbove(b, active)
  }

  ghost predicate OwnersDefer(m: Model, ds: seq<Deferred>) {
    forall d :: d in ds ==> Defers(m, d.owner, d.event.name)
  }

  lemma {:induction false} DroppedWereLeft(m: Model, active: Path, source: Option<Path>, ds: seq<Deferred>)
    requires OwnersDefer(m, ds)
    ensures forall e :: e in Dropped(m, active, source, ds) ==> Left(m, active, e.name)
    decreases ds
  {
    hide Left, Defers, Discards;
    if ds != [] {
      DroppedWereLeft(m, active, source, ds[1..]);
      if Discards(m, active, source, ds[0]) {
        OneWasLeft(m, active, source, ds[0]);
      }
    }
  }

  lemma OneWasLeft(m: Model, active: Path, source: Option<Path>, d: Deferred)
    requires Discards(m, active, source, d) && Defers(m, d.owner, d.event.name)
    ensures Left(m, active, d.event.name)
  {
    DiscardsOnlyAfterLeaving(m, active, source, d);
    var b :| b in m.vertices && m.vertices[b].kind.Submachine? && b != m.root
             && IsAncestor(b, d.owner) && !AtOrAbove(b, active);
    assert LeftBehind(m, active, d.event.name, d.owner, b);
  }

  /** What one turn adds to the discarded events. */
  ghost predicate DiscardsLeft(m: Model, before: Loop, after: Loop) {
    && OwnersDefer(m, after.deferred)
    && before.discarded <= after.discarded
    && forall e :: e in after.discarded[|before.discarded|..] ==> Left(m, after.machine.state, e.name)
  }

  lemma IterateDiscards(m: Model, env: Env, fuel: nat, currentId: string, l: Loop)
    requires OwnersDefer(m, l.deferred)
    ensures var next := Iterate(m, env, fuel, currentId, l);
            next.Running? || next.Ended? ==> DiscardsLeft(m, l, next.loop)
    ensures var next := Iterate(m, env, fuel, currentId, l); next.Ended? ==> next.loop.discarded == l.discarded
  {
    hide ProcessEvent, TableOwner, PushAll, Events, Kept, Dropped, Left, Defers;
    var w := Arrive(env, l.machine.world);
    if !IsEmpty(w.queue) {
      var e, s := StripId(Head(w.queue)), l.machine.(world := w.(queue := Rest(w.queue)));
      DeferOwnerIsInnermost(m, s.state, e.name);
      UntakenStays(Context(m, env, e), fuel, s);
      var h := ProcessEvent(Context(m, env, e), fuel, s);
      if h.Handled? && h.taken.Some? {
        DroppedWereLeft(m, h.machine.state, Some(h.taken.value.source), l.deferred);
      }
    }
  }

  /** At the end of some turn, so far, the machine has left a submachine around a state that
      defers the name. */
  ghost predicate LeftDuring(m: Model, env: Env, fuel: nat, turns: nat, currentId: string, l: Loop, name: string) {
    exists k: nat :: k <= turns && LeftAfter(m, env, fuel, k, currentId, l, name)
  }

  ghost predicate LeftAfter(m: Model, env: Env, fuel: nat, k: nat, currentId: string, l: Loop, name: string) {
    var p := Process(m, env, fuel, k, currentId, l);
    p.Running? && Left(m, p.loop.machine.state, name)
  }

  /** An event is discarded only after the machine has left, during the run, a submachine state
      around a state that defers the event. */
  lemma {:induction false} ProcessDiscards(m: Model, env: Env, fuel: nat, turns: nat, currentId: string, l: Loop)
    requires OwnersDefer(m, l.deferred)
    ensures var next := Process(m, env, fuel, turns, currentId, l);
            next.Running? || next.Ended? ==>
              && l.discarded <= next.loop.discarded
              && forall e :: e in next.loop.discarded[|l.discarded|..] ==>
                   LeftDuring(m, env, fuel, turns, currentId, l, e.name)
    decreases turns
  {
    hide Iterate, Left, OwnersDefer;
    if turns > 0 {
      IterateDiscards(m, env, fuel, currentId, l);
      var next, last := Iterate(m, env, fuel, currentId, l), Process(m, env, fuel, turns, currentId, l);
      if next.Running? {
        ProcessDiscards(m, env, fuel, turns - 1, currentId, next.loop);
        if last.Running? || last.Ended? {
          forall e | e in last.loop.discarded[|l.discarded|..]
            ensures LeftDuring(m, env, fuel, turns, currentId, l, e.name)
          {
            LeftInSomeTurn(m, env, fuel, turns, currentId, l, next.loop, last.loop, e);
          }
        }
      }
    }
  }

  lemma LeftInSomeTurn(m: Model, env: Env, fuel: nat, turns: nat, currentId: string, l: Loop, mid: Loop, last: Loop,
          e: Event)
    requires turns > 0 && Iterate(m, env, fuel, currentId, l) == Running(mid) && DiscardsLeft(m, l, mid)
    requires mid.discarded <= last.discarded && e in last.discarded[|l.discarded|..]
    requires forall x :: x in last.discarded[|mid.discarded|..] ==>
               LeftDuring(m, env, fuel, turns - 1, currentId, mid, x.name)
    ensures LeftDuring(m, env, fuel, turns, currentId, l, e.name)
  {
    hide Iterate, Left, OwnersDefer;
    var i :| |l.discarded| <= i < |last.discarded| && last.discarded[i] == e;
    if i < |mid.discarded| {
      assert e == mid.discarded[|l.discarded|..][i - |l.discarded|];
      assert Process(m, env, fuel, 1, currentId, l) == Running(mid) by {
        assert Process(m, env, fuel, 0, currentId, mid) == Running(mid);
      }
      assert LeftAfter(m, env, fuel, 1, currentId, l, e.name);
    } else {
      assert e == last.discarded[|mid.discarded|..][i - |mid.discarded|];
      var k: nat :| k <= turns - 1 && LeftAfter(m, env, fuel, k, currentId, mid, e.name);
      assert LeftAfter(m, env, fuel, k + 1, currentId, l, e.name);
    }
  }

  /** Where no state that defers anything is inside a submachine, nothing is ever discarded. */
  ghost predicate NoneEnclosed(m: Model) {
    forall p, e :: Defers(m, p, e) ==> Enclosing(m, Dir(p)).None?
  }

  lemma ProcessDiscardsNothing(m: Model, env: Env, fuel: nat, turns: nat, currentId: string, l: Loop)
    requires NoneEnclosed(m) && OwnersDefer(m, l.deferred)
    ensures var next := Process(m, env, fuel, turns, currentId, l);
            next.Running? || next.Ended? ==> next.loop.discarded == l.discarded
  {
    hide Process, Defers, Left, NoneEnclosed;
    ProcessDiscards(m, env, fuel, turns, currentId, l);
    forall active, name
      ensures !Left(m, active, name)
    {
      NothingLeft(m, active, name);
    }
    var next := Process(m, env, fuel, turns, currentId, l);
    if next.Running? || next.Ended? {
      var added := next.loop.discarded[|l.discarded|..];
      if added != [] {
        FirstIsMember(added);
      }
    }
  }

  lemma NothingLeft(m: Model, active: Path, name: string)
    requires NoneEnclosed(m)
    ensures !Left(m, active, name)
  {
  }

  lemma FirstIsMember(es: seq<Event>)
    requires es != []
    ensures es[0] in es
  {
  }

  // ----- order of what is left -----

  function Lane(es: seq<Event>, completion: bool): seq<Event> {
    if es == [] then []
    else Lane(es[..|es| - 1], completion) + if es[|es| - 1].completion == completion then [es[|es| - 1]] else []
  }

  /** Pushing keeps the order within each lane. */
  lemma {:induction false} PushAllKeepsOrder(q: Pending, es: seq<Event>)
    ensures PushAll(q, es) == Pending(q.completions + Lane(es, true), q.regular + Lane(es, false))
    decreases es
  {
    if es != [] {
      PushAllKeepsOrder(q, es[..|es| - 1]);
    }
  }

  /** Every deferred event is still deferred by its owner in the current state. */
  ghost predicate DeferralsCurrent(m: Model, l: Loop) {
    forall d :: d in l.deferred ==>
      TableOwner(m, l.machine.state, l.machine.state, d.event.name) == Some(d.owner)
  }

  ghost predicate ProgressCurrent(m: Model, next: Progress) {
    && (next.Running? || next.Ended? ==> DeferralsCurrent(m, next.loop))
    && (next.Ended? ==> next.loop.machine.world.queue == PushAll(EMPTY, Events(next.loop.deferred)))
  }

  lemma IterateKeepsCurrent(m: Model, env: Env, fuel: nat, currentId: string, l: Loop)
    requires DeferralsCurrent(m, l)
    ensures ProgressCurrent(m, Iterate(m, env, fuel, currentId, l))
  {
    hide ProcessEvent, TableOwner, PushAll, Events, Kept, Dropped;
    var w := Arrive(env, l.machine.world);
    if IsEmpty(w.queue) {
      assert w.queue == EMPTY;
    } else {
      var e, s := StripId(Head(w.queue)), l.machine.(world := w.(queue := Rest(w.queue)));
      UntakenStays(Context(m, env, e), fuel, s);
    }
  }

  lemma {:induction false} ProcessKeepsCurrent(m: Model, env: Env, fuel: nat, turns: nat, currentId: string, l: Loop)
    requires DeferralsCurrent(m, l)
    ensures ProgressCurrent(m, Process(m, env, fuel, turns, currentId, l))
    decreases turns
  {
    hide Iterate, DeferralsCurrent;
    if turns > 0 {
      IterateKeepsCurrent(m, env, fuel, currentId, l);
      var next := Iterate(m, env, fuel, currentId, l);
      if next.Running? {
        ProcessKeepsCurrent(m, env, fuel, turns - 1, currentId, next.loop);
      }
    }
  }

  /** The queue a process run leaves, of any model and from any machine: the events deferred last,
      those of each lane in the order in which they were deferred, each still deferred by its owner
      in the final state. */
  lemma ProcessLeavesDeferred(m: Model, env: Env, fuel: nat, turns: nat, currentId: string, s: Machine)
    ensures var next := Process(m, env, fuel, turns, currentId, Begin(s));
            next.Ended? ==>
              var l := next.loop;
              && l.machine.world.queue == Pending(Lane(Events(l.deferred), true), Lane(Events(l.deferred), false))
              && forall d :: d in l.deferred ==> WalkOwner(m, l.machine.state, d.event.name) == Some(d.owner)
  {
    ProcessKeepsCurrent(m, env, fuel, turns, currentId, Begin(s));
    var next := Process(m, env, fuel, turns, currentId, Begin(s));
    if next.Ended? {
      PushAllKeepsOrder(EMPTY, Events(next.loop.deferred));
      forall d | d in next.loop.deferred ensures WalkOwner(m, next.loop.machine.state, d.event.name) == Some(d.owner) {
        DeferOwnerIsInnermost(m, next.loop.machine.state, d.event.name);
      }
    }
  }

  // ----- termination -----

  /** An upper bound on the turns left when at most `budget` more events are raised. */
  function Rank(l: Loop, budget: nat): nat {
    var queued := Size(l.machine.world.queue) + budget;
    var pending := queued + |l.deferred|;
    pending * (pending + 1) + queued
  }

  function RaisedSince(before: Loop, after: Loop): int {
    |after.machine.world.raised| - |before.machine.world.raised|
  }

  lemma RankDrops(pending: nat, queued: nat, pending': nat, queued': nat)
    requires queued <= pending && queued' <= pending'
    requires pending' < pending || (pending' == pending && queued' < queued)
    ensures pending' * (pending' + 1) + queued' < pending * (pending + 1) + queued
  {
    if pending' < pending {
      assert pending' * (pending' + 1) <= (pending - 1) * pending;
    }
  }

  /** What consuming an event leaves pending. */
  lemma ConsumeShrinks(m: Model, l: Loop, h: Outcome, e: Event)
    requires h.Handled?
    ensures var after := Consume(m, l, h, e);
            && Size(after.machine.world.queue) + |after.deferred| <= Size(h.machine.world.queue) + |l.deferred|
            && after.machine.world.raised == h.machine.world.raised
  {
    hide Kept, Dropped, PushAll;
    if h.taken.Some? {
      var active, source := h.machine.state, Some(h.taken.value.source);
      KeptAndDropped(m, active, source, l.deferred);
      PushAllBag(h.machine.world.queue, Kept(m, active, source, l.deferred));
    }
  }

  /** Every turn descends: a deferral shortens the queue, and anything else consumes an event
      for good, even though a taken transition refills the queue with the deferred ones. */
  lemma IterateDescends(m: Model, env: Env, fuel: nat, currentId: string, l: Loop, budget: nat)
    ensures var next := Iterate(m, env, fuel, currentId, l);
            next.Running? ==>
              && 0 <= RaisedSince(l, next.loop)
              && (RaisedSince(l, next.loop) <= budget ==>
                    Rank(next.loop, budget - RaisedSince(l, next.loop)) < Rank(l, budget))
  {
    hide ProcessEvent, TableOwner, PushAll, Bag, Size, Consume;
    var next := Iterate(m, env, fuel, currentId, l);
    if next.Running? {
      var w := Arrive(env, l.machine.world);
      ArriveBalanced(env, l.machine.world);
      PopBag(w.queue);
      var s := l.machine.(world := w.(queue := Rest(w.queue)));
      var e := StripId(Head(w.queue));
      var h := ProcessEvent(Context(m, env, e), fuel, s);
      ProcessEventBalanced(Context(m, env, e), fuel, s);
      if h.Handled? {
        ConsumeShrinks(m, l, h, e);
      }
      var r := RaisedSince(l, next.loop);
      if r <= budget {
        var queued, queued' := Size(l.machine.world.queue) + budget, Size(next.loop.machine.world.queue) + budget - r;
        RankDrops(queued + |l.deferred|, queued, queued' + |next.loop.deferred|, queued');
      }
    }
  }

  /** Termination: a process run during which at most `budget` events are raised is over after
      at most `Rank` turns, provided handling each event returns. */
  lemma {:induction false} ProcessEnds(m: Model, env: Env, fuel: nat, turns: nat, currentId: string, l: Loop,
          budget: nat)
    requires Rank(l, budget) < turns
    ensures var next := Process(m, env, fuel, turns, currentId, l);
            next.Running? ==> RaisedSince(l, next.loop) > budget
    decreases turns
  {
    hide Iterate, Rank;
    var next := Iterate(m, env, fuel, currentId, l);
    IterateDescends(m, env, fuel, currentId, l, budget);
    if next.Running? {
      var r := RaisedSince(l, next.loop);
      if r <= budget {
        ProcessEnds(m, env, fuel, turns - 1, currentId, next.loop, budget - r);
      } else {
        RaisedGrows(m, env, fuel, turns - 1, currentId, next.loop);
      }
    }
  }

  lemma {:induction false} RaisedGrows(m: Model, env: Env, fuel: nat, turns: nat, currentId: string, l: Loop)
    ensures var next := Process(m, env, fuel, turns, currentId, l);
            next.Running? ==> RaisedSince(l, next.loop) >= 0
    decreases turns
  {
    ProcessConserves(m, env, fuel, turns, currentId, l);
  }
}
