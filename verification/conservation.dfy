/** Event accounting: whatever a step does, the queue grows by exactly what was raised. */
module Conservation {
  import opened Options
  import opened Paths
  import opened Models
  import opened PathCompiler
  import opened EventQueue
  import opened Semantics

  /** The runtime strips the identifiers it adds itself, so events are counted without theirs. */
  function Anonymous(e: Event): Event {
    e.(id := "")
  }

  function Bag(es: seq<Event>): multiset<Event> {
    if es == [] then multiset{} else Bag(es[..|es| - 1]) + multiset{Anonymous(es[|es| - 1])}
  }

  function QueueBag(q: Pending): multiset<Event> {
    Bag(q.completions) + Bag(q.regular)
  }

  lemma {:induction false} BagOfConcat(a: seq<Event>, b: seq<Event>)
    ensures Bag(a + b) == Bag(a) + Bag(b)
    decreases b
  {
    if b == [] {
      assert a + b == a;
    } else {
      assert (a + b)[..|a + b| - 1] == a + b[..|b| - 1];
      BagOfConcat(a, b[..|b| - 1]);
    }
  }

  lemma PushBag(q: Pending, e: Event)
    ensures QueueBag(Push(q, e)) == QueueBag(q) + multiset{Anonymous(e)}
    ensures Size(Push(q, e)) == Size(q) + 1
  {
    BagOfConcat(if e.completion then q.completions else q.regular, [e]);
    assert [e][..0] == [];
  }

  lemma {:induction false} PushAllBag(q: Pending, es: seq<Event>)
    ensures QueueBag(PushAll(q, es)) == QueueBag(q) + Bag(es)
    ensures Size(PushAll(q, es)) == Size(q) + |es|
    decreases es
  {
    if es != [] {
      PushAllBag(q, es[..|es| - 1]);
      PushBag(PushAll(q, es[..|es| - 1]), es[|es| - 1]);
    }
  }

  lemma PopBag(q: Pending)
    requires !IsEmpty(q)
    ensures QueueBag(q) == QueueBag(Rest(q)) + multiset{Anonymous(Head(q))}
    ensures Size(q) == Size(Rest(q)) + 1
  {
    if q.completions == [] {
      assert q.regular == [Head(q)] + q.regular[1..];
      BagOfConcat([Head(q)], q.regular[1..]);
      assert [Head(q)][..0] == [];
    }
  }

  ghost predicate Balanced(w: World, after: World) {
    && QueueBag(after.queue) + Bag(w.raised) == QueueBag(w.queue) + Bag(after.raised)
    && |w.raised| <= |after.raised|
    && Size(after.queue) - Size(w.queue) == |after.raised| - |w.raised|
  }

  ghost predicate StepBalanced(w: World, step: Result) {
    match step
    case Diverged => true
    case Ran(after, _) => Balanced(w, after)
  }

  lemma RaisingBalanced(w: World, es: seq<Event>, after: World)
    requires after.queue == PushAll(w.queue, es) && after.raised == w.raised + es
    ensures Balanced(w, after)
  {
    PushAllBag(w.queue, es);
    BagOfConcat(w.raised, es);
  }

  lemma BalancedTransitive(w: World, mid: World, after: World)
    requires Balanced(w, mid) && Balanced(mid, after)
    ensures Balanced(w, after)
  {
    hide Bag, QueueBag;
    var q0, q1, q2 := QueueBag(w.queue), QueueBag(mid.queue), QueueBag(after.queue);
    var r0, r1, r2 := Bag(w.raised), Bag(mid.raised), Bag(after.raised);
    forall x: Event ensures (q2 + r0)[x] == (q0 + r2)[x] {
      assert (q1 + r0)[x] == (q0 + r1)[x] && (q2 + r1)[x] == (q1 + r2)[x];
    }
  }

  lemma BalancedFrom(w: World, mid: World, step: Result)
    requires Balanced(w, mid) && StepBalanced(mid, step)
    ensures StepBalanced(w, step)
  {
    if step.Ran? {
      BalancedTransitive(w, mid, step.world);
    }
  }

  lemma PerformBalanced(c: Context, w: World, act: Act)
    ensures Balanced(w, Perform(c, w, act))
  {
    RaisingBalanced(w, c.env.raise(act, c.event, w.clock), Perform(c, w, act));
  }

  lemma {:induction false} FirstEnabledBalanced(c: Context, w: World, names: seq<Path>)
    ensures Balanced(w, FirstEnabled(c, w, names).0)
    decreases names
  {
    if names != [] {
      if names[0] in c.model.transitions {
        FirstEnabledBalanced(c, Enabled(c, w, c.model.transitions[names[0]]).0, names[1..]);
      } else {
        FirstEnabledBalanced(c, w, names[1..]);
      }
    }
  }

  lemma {:induction false} ExitAllBalanced(c: Context, w: World, exit: seq<Path>)
    ensures Balanced(w, ExitAll(c, w, exit).0)
    decreases exit
  {
    if exit != [] && exit[0] in c.model.vertices {
      var w1 := Exit(c, w, exit[0]);
      ExitBalanced(c, w, exit[0]);
      ExitAllBalanced(c, w1, exit[1..]);
      BalancedTransitive(w, w1, ExitAll(c, w1, exit[1..]).0);
    } else {
      SameQueueBalanced(w, w);
    }
    hide Balanced, Exit;
  }

  lemma ExitBalanced(c: Context, w: World, p: Path)
    requires p in c.model.vertices
    ensures Balanced(w, Exit(c, w, p))
  {
    PerformBalanced(c, w, Exited(p));
    SameQueueBalanced(w, w.(trace := w.trace + [Exited(p)]));
    SameQueueBalanced(w, w);
    hide Balanced, Perform;
  }

  lemma SameQueueBalanced(w: World, after: World)
    requires after.queue == w.queue && after.raised == w.raised
    ensures Balanced(w, after)
  {
    hide Bag, QueueBag, Size;
  }

  lemma {:induction false} EnterBalanced(c: Context, fuel: nat, w: World, p: Path, byDefault: bool)
    requires p in c.model.vertices
    ensures StepBalanced(w, Enter(c, fuel, w, p, byDefault))
    decreases fuel, 0, 0
  {
    hide Fire, EnterAll, EnterRecorded, EnterUnrecorded, Bag, PushAll, Size;
    var v := c.model.vertices[p];
    if fuel == 0 {
    } else if IsComposite(v.kind) {
      var w1, initial := Perform(c, w, Entered(p)), InitialTransition(c.model, p);
      PerformBalanced(c, w, Entered(p));
      if byDefault && initial.Some? {
        FireBalanced(c, fuel - 1, w1, p, initial.value);
        BalancedFrom(w, w1, Fire(c, fuel - 1, w1, p, initial.value));
      }
    } else if v.kind.Choice? {
      var (w1, t) := FirstEnabled(c, w, v.transitions);
      FirstEnabledBalanced(c, w, v.transitions);
      if t.Some? {
        FireBalanced(c, fuel - 1, w1, p, t.value);
        BalancedFrom(w, w1, Fire(c, fuel - 1, w1, p, t.value));
      }
    } else if IsHistory(v.kind) {
      var recorded := Recall(w, v.kind, Dir(p));
      if recorded.None? {
        UnrecordedBalanced(c, fuel - 1, w, p);
      } else if HistoryPath(c.model, Dir(p), recorded.value) != [] {
        RecordedBalanced(c, fuel - 1, w, HistoryPath(c.model, Dir(p), recorded.value), v.kind.ShallowHistory?);
      }
    } else if v.kind.Final? {
      FinalBalanced(w, p);
    }
  }

  lemma FinalBalanced(w: World, p: Path)
    ensures Balanced(w, EnterFinal(w, p))
  {
    assert PushAll(w.queue, [FinalCompletion(p)]) == Push(PushAll(w.queue, []), FinalCompletion(p)) by {
      assert [FinalCompletion(p)][..0] == [];
    }
    RaisingBalanced(w, [FinalCompletion(p)], EnterFinal(w, p));
  }

  lemma {:induction false} UnrecordedBalanced(c: Context, fuel: nat, w: World, history: Path)
    requires history in c.model.vertices
    ensures StepBalanced(w, EnterUnrecorded(c, fuel, w, history))
    decreases fuel, 3, 0
  {
    hide Enter, Fire, EnterAll, EnterRecorded, Bag, Size;
    var (w1, t) := FirstEnabled(c, w, c.model.vertices[history].transitions);
    FirstEnabledBalanced(c, w, c.model.vertices[history].transitions);
    var followed := if t.Some? then Fire(c, fuel, w1, history, t.value) else Ran(w1, None);
    if t.Some? {
      FireBalanced(c, fuel, w1, history, t.value);
    }
    BalancedFrom(w, w1, followed);
    var owner := Dir(history);
    var initial := if HasState(c.model, owner) then InitialTransition(c.model, owner) else None;
    if followed.Ran? && followed.at.None? && initial.Some? {
      FireBalanced(c, fuel, followed.world, owner, initial.value);
      BalancedFrom(w, followed.world, Fire(c, fuel, followed.world, owner, initial.value));
    }
  }

  lemma {:induction false} RecordedBalanced(c: Context, fuel: nat, w: World, path: seq<Path>, shallow: bool)
    requires path != []
    ensures StepBalanced(w, EnterRecorded(c, fuel, w, path, shallow))
    decreases fuel, 1, |path|
  {
    hide Enter, Fire, EnterAll, EnterUnrecorded, Bag, Size;
    if path[0] in c.model.vertices {
      EnterBalanced(c, fuel, w, path[0], shallow && |path| == 1);
      var step := Enter(c, fuel, w, path[0], shallow && |path| == 1);
      if step.Ran? && |path| > 1 {
        RecordedBalanced(c, fuel, step.world, path[1..], shallow);
        BalancedFrom(w, step.world, EnterRecorded(c, fuel, step.world, path[1..], shallow));
      }
    }
  }

  lemma {:induction false} EnterAllBalanced(c: Context, fuel: nat, w: World, enter: seq<Path>, target: Option<Path>)
    ensures StepBalanced(w, EnterAll(c, fuel, w, enter, target))
    decreases fuel, 1, |enter|
  {
    hide Enter, Fire, EnterRecorded, EnterUnrecorded, Bag, Size;
    if enter != [] && enter[0] in c.model.vertices {
      var byDefault := Some(enter[0]) == target;
      EnterBalanced(c, fuel, w, enter[0], byDefault);
      var step := Enter(c, fuel, w, enter[0], byDefault);
      if step.Ran? && step.at.Some? && !byDefault {
        EnterAllBalanced(c, fuel, step.world, enter[1..], target);
        BalancedFrom(w, step.world, EnterAll(c, fuel, step.world, enter[1..], target));
      }
    }
  }

  /** Firing a transition adds to the queue exactly what its behaviours raised. */
  lemma {:induction false} FireBalanced(c: Context, fuel: nat, w: World, current: Path, t: Transition)
    ensures StepBalanced(w, Fire(c, fuel, w, current, t))
    decreases fuel, 2, 0
  {
    hide Enter, EnterAll, EnterRecorded, EnterUnrecorded, RouteOf, ExitAll, Bag, Size;
    if Reaches(c.model, t, current) {
      var route := RouteOf(c.model, t, current);
      var w1 := if route.exit != [] then Record(c.model, w, current, HistoryOwner(c.model, t)) else w;
      var (w2, left) := ExitAll(c, w1, route.exit);
      ExitAllBalanced(c, w1, route.exit);
      var w3 := Perform(c, w2, Effect(t.name));
      PerformBalanced(c, w2, Effect(t.name));
      BalancedTransitive(w, w2, w3);
      EnterAllBalanced(c, fuel, w3, route.enter, t.target);
      BalancedFrom(w, w3, EnterAll(c, fuel, w3, route.enter, t.target));
    }
  }
}
