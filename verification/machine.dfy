/** The runtime object: current element, history maps and queue as fields updated in place.
    Every method does to the fields what the run-to-completion semantics says. */
module HsmMachine {
  import opened Options
  import opened Paths
  import opened Models
  import opened PathCompiler
  import opened EventQueue
  import opened Semantics
  import opened Configuration
  import opened DispatchTables
  import opened Finalizer
  import opened RunToCompletion
  import opened Records

  lemma StateIsVertex(m: Model, s: Machine)
    requires Sound(m, s)
    ensures s.state in m.vertices
  {
  }

  lemma NewMachineIsSound(m: Model)
    requires Nested(m)
    ensures Sound(m, Machine(m.root, World(map[], map[], EMPTY, 0, [], [])))
  {
  }

  lemma KeptNone(m: Model, active: Path, source: Option<Path>)
    ensures Kept(m, active, source, []) == []
  {
  }

  lemma {:induction false} KeptSnoc(m: Model, active: Path, source: Option<Path>, ds: seq<Deferred>, d: Deferred)
    ensures Kept(m, active, source, ds + [d]) ==
            if Discards(m, active, source, d) then Kept(m, active, source, ds)
            else Kept(m, active, source, ds) + [d.event]
    decreases ds
  {
    hide Discards;
    if ds == [] {
      assert ([d])[1..] == [];
    } else {
      assert (ds + [d])[1..] == ds[1..] + [d];
      KeptSnoc(m, active, source, ds[1..], d);
    }
  }

  lemma PushNone(q: Pending)
    ensures PushAll(q, []) == q
  {
  }

  lemma PushSnoc(q: Pending, es: seq<Event>, e: Event)
    ensures PushAll(q, es + [e]) == Push(PushAll(q, es), e)
  {
    assert (es + [e])[..|es|] == es;
  }

  // ----- recording history one vertex at a time -----

  function StoreIn(m: Model, w: World, h: Path, target: Path): World
    requires h in m.vertices
  {
    if m.vertices[h].kind.ShallowHistory? then w.(shallow := w.shallow[Dir(h) := target])
    else if m.vertices[h].kind.DeepHistory? then w.(deep := w.deep[Dir(h) := target])
    else w
  }

  ghost predicate StoredAt(m: Model, s: Path, skip: Option<Path>, k: VertexKind, done: set<Path>,
                           before: map<Path, Path>, after: map<Path, Path>, p: Path)
  {
    if exists h :: h in done && Remembers(m, s, skip, h) && m.vertices[h].kind == k && Dir(h) == p
    then p in after && IsAncestor(p, s) && after[p] == if k.ShallowHistory? then s[..|p| + 1] else s
    else (p in after <==> p in before) && (p in before ==> after[p] == before[p])
  }

  /** `after` is `before` with what the history vertices in `done` remember of `s`. */
  ghost predicate Stored(m: Model, s: Path, skip: Option<Path>, done: set<Path>, before: World, after: World) {
    && after == before.(shallow := after.shallow, deep := after.deep)
    && (forall p :: StoredAt(m, s, skip, ShallowHistory, done, before.shallow, after.shallow, p))
    && (forall p :: StoredAt(m, s, skip, DeepHistory, done, before.deep, after.deep, p))
  }

  lemma StoredNone(m: Model, s: Path, skip: Option<Path>, before: World)
    ensures Stored(m, s, skip, {}, before, before)
  {
  }

  lemma StoredOne(m: Model, s: Path, skip: Option<Path>, done: set<Path>, h: Path, before: World, after: World)
    requires Stored(m, s, skip, done, before, after) && Remembers(m, s, skip, h)
    ensures Stored(m, s, skip, done + {h}, before, StoreIn(m, after, h, Remembered(m, s, h)))
  {
    var next := StoreIn(m, after, h, Remembered(m, s, h));
    forall p
      ensures StoredAt(m, s, skip, ShallowHistory, done + {h}, before.shallow, next.shallow, p)
      ensures StoredAt(m, s, skip, DeepHistory, done + {h}, before.deep, next.deep, p)
    {
      assert StoredAt(m, s, skip, ShallowHistory, done, before.shallow, after.shallow, p);
      assert StoredAt(m, s, skip, DeepHistory, done, before.deep, after.deep, p);
      assert h in done + {h};
    }
  }

  lemma StoredAllOf(m: Model, s: Path, skip: Option<Path>, k: VertexKind, targets: map<Path, Path>,
          before: map<Path, Path>, after: map<Path, Path>)
    requires TargetsFor(m, s, skip, targets) && (k.ShallowHistory? || k.DeepHistory?)
    requires forall p :: StoredAt(m, s, skip, k, targets.Keys, before, after, p)
    ensures after == before + Targets(m, s, skip, k)
  {
    var stored := before + Targets(m, s, skip, k);
    forall p ensures (p in after <==> p in stored) && (p in after ==> after[p] == stored[p]) {
      assert StoredAt(m, s, skip, k, targets.Keys, before, after, p);
      if p in Targets(m, s, skip, k) {
        var h :| h in m.vertices && h != [] && Dir(h) == p && m.vertices[h].kind == k;
        assert Remembers(m, s, skip, h) && h in targets.Keys;
      }
    }
  }

  lemma StoredAll(m: Model, s: Path, skip: Option<Path>, targets: map<Path, Path>, before: World, after: World)
    requires TargetsFor(m, s, skip, targets) && Stored(m, s, skip, targets.Keys, before, after)
    ensures after == before.(shallow := before.shallow + Targets(m, s, skip, ShallowHistory),
                             deep := before.deep + Targets(m, s, skip, DeepHistory))
  {
    StoredAllOf(m, s, skip, ShallowHistory, targets, before.shallow, after.shallow);
    StoredAllOf(m, s, skip, DeepHistory, targets, before.deep, after.deep);
  }

  class Hsm {
    const model: Model
    const index: Finalized
    const env: Env
    var state: Path
    var historyShallow: map<Path, Path>
    var historyDeep: map<Path, Path>
    var queue: Pending
    var clock: nat
    ghost var trace: seq<Act>
    ghost var raised: seq<Event>

    ghost predicate Valid() {
      Structured(model) && FinalizedFor(model, index)
    }

    ghost function Snapshot(): World
      reads this
    {
      World(historyShallow, historyDeep, queue, clock, trace, raised)
    }

    function On(event: Event): Context {
      Context(model, env, event)
    }

    constructor (model: Model, index: Finalized, env: Env)
      ensures this.model == model && this.index == index && this.env == env
      ensures state == model.root && Snapshot() == World(map[], map[], EMPTY, 0, [], [])
      ensures Nested(model) ==> Sound(model, Current())
    {
      this.model, this.index, this.env := model, index, env;
      state, historyShallow, historyDeep := model.root, map[], map[];
      queue, clock, trace, raised := EMPTY, 0, [], [];
      new;
      if Nested(model) {
        NewMachineIsSound(model);
      }
    }

    /** Run the behaviours of an act; they may raise events. */
    method Execute(event: Event, act: Act)
      modifies this
      ensures state == old(state) && Snapshot() == Perform(On(event), old(Snapshot()), act)
    {
      var es := env.raise(act, event, clock);
      queue, clock := PushAll(queue, es), clock + 1;
      trace, raised := trace + [act], raised + es;
    }

    method ExitElement(event: Event, p: Path)
      requires p in model.vertices
      modifies this
      ensures state == old(state) && Snapshot() == Exit(On(event), old(Snapshot()), p)
    {
      if IsComposite(model.vertices[p].kind) {
        Execute(event, Exited(p));
      } else if model.vertices[p].kind.Final? {
        trace := trace + [Exited(p)];
      }
    }

    method TransitionEnabled(event: Event, t: Transition) returns (matches: bool)
      modifies this
      ensures state == old(state) && (Snapshot(), matches) == Enabled(On(event), old(Snapshot()), t)
    {
      matches := true;
      if t.guard.Some? {
        matches := env.guard(t.guard.value, event, clock);
        clock := clock + 1;
      }
    }

    method FirstEnabledTransition(event: Event, names: seq<Path>) returns (found: Option<Transition>)
      modifies this
      ensures state == old(state) && (Snapshot(), found) == FirstEnabled(On(event), old(Snapshot()), names)
    {
      var i := 0;
      while i < |names|
        invariant 0 <= i <= |names| && state == old(state)
        invariant FirstEnabled(On(event), old(Snapshot()), names) == FirstEnabled(On(event), Snapshot(), names[i..])
      {
        assert names[i..][1..] == names[i + 1..];
        if names[i] in model.transitions {
          var t := model.transitions[names[i]];
          var matches := TransitionEnabled(event, t);
          if matches {
            return Some(t);
          }
        }
        i := i + 1;
      }
      return None;
    }

    /** Store the compiled targets of `stateName`, one history vertex at a time. */
    method RecordHistory(stateName: Path, skip: Option<Path>)
      requires Valid() && (skip.Some? ==> OwnsHistory(model, skip.value))
      modifies this
      ensures state == old(state) && Snapshot() == Record(model, old(Snapshot()), stateName, skip)
    {
      if HasState(model, stateName) {
        var targets := LookupTargets(index.historyTargets, stateName, skip);
        StoreTargets(stateName, skip, targets);
        trace := trace + [Recorded(stateName, skip)];
      }
    }

    method StoreTargets(s: Path, skip: Option<Path>, targets: map<Path, Path>)
      requires TargetsFor(model, s, skip, targets)
      modifies this
      ensures state == old(state)
      ensures Snapshot() == old(Snapshot()).(
                shallow := old(historyShallow) + Targets(model, s, skip, ShallowHistory),
                deep := old(historyDeep) + Targets(model, s, skip, DeepHistory))
    {
      hide Stored, Targets;
      ghost var before := Snapshot();
      StoredNone(model, s, skip, before);
      var todo := targets.Keys;
      assert targets.Keys - todo == {};
      while todo != {}
        invariant todo <= targets.Keys && state == old(state)
        invariant Stored(model, s, skip, targets.Keys - todo, before, Snapshot())
        decreases |todo|
      {
        var h :| h in todo;
        StoredOne(model, s, skip, targets.Keys - todo, h, before, Snapshot());
        assert targets.Keys - (todo - {h}) == targets.Keys - todo + {h};
        todo := todo - {h};
        StoreTarget(h, targets[h]);
      }
      assert targets.Keys - todo == targets.Keys;
      StoredAll(model, s, skip, targets, before, Snapshot());
    }

    method StoreTarget(h: Path, target: Path)
      requires h in model.vertices
      modifies this
      ensures state == old(state) && Snapshot() == StoreIn(model, old(Snapshot()), h, target)
    {
      if model.vertices[h].kind.ShallowHistory? {
        historyShallow := historyShallow[Dir(h) := target];
      } else if model.vertices[h].kind.DeepHistory? {
        historyDeep := historyDeep[Dir(h) := target];
      }
    }

    method ResolveHistory(parent: Path, k: VertexKind) returns (resolved: Option<Path>)
      ensures resolved == Recall(Snapshot(), k, parent)
    {
      resolved := None;
      if k.ShallowHistory? {
        if parent in historyShallow {
          resolved := Some(historyShallow[parent]);
        }
      } else {
        if parent in historyDeep {
          resolved := Some(historyDeep[parent]);
        }
      }
      if resolved.Some? && !IsAncestor(parent, resolved.value) {
        resolved := None;
      }
    }

    // ----- entering and firing -----

    method EnterElement(ghost fuel: nat, event: Event, p: Path, byDefault: bool) returns (at: Option<Path>)
      requires Valid() && p in model.vertices
      requires Enter(On(event), fuel, Snapshot(), p, byDefault).Ran?
      modifies this
      ensures state == old(state) && Enter(On(event), fuel, old(Snapshot()), p, byDefault) == Ran(Snapshot(), at)
      decreases fuel, 0, 0
    {
      hide Fire, EnterAll, EnterRecorded, EnterUnrecorded, FirstEnabled, Perform, PushAll;
      var v := model.vertices[p];
      if IsComposite(v.kind) {
        Execute(event, Entered(p));
        var initial := InitialTransition(model, p);
        if byDefault && initial.Some? {
          InitialFacts(model, p);
          at := FireTransition(fuel - 1, event, p, initial.value);
        } else {
          at := Some(p);
        }
      } else if v.kind.Choice? {
        FirstEnabledFacts(On(event), Snapshot(), v.transitions);
        var t := FirstEnabledTransition(event, v.transitions);
        if t.Some? {
          at := FireTransition(fuel - 1, event, p, t.value);
        } else {
          at := None;
        }
      } else if IsHistory(v.kind) {
        at := EnterHistory(fuel, event, p, byDefault);
      } else if v.kind.Final? {
        trace := trace + [Entered(p)];
        queue, raised := Push(queue, FinalCompletion(p)), raised + [FinalCompletion(p)];
        at := Some(p);
      } else {
        at := None;
      }
    }

    method EnterHistory(ghost fuel: nat, event: Event, p: Path, byDefault: bool) returns (at: Option<Path>)
      requires Valid() && p in model.vertices && IsHistory(model.vertices[p].kind) && fuel > 0
      requires Enter(On(event), fuel, Snapshot(), p, byDefault).Ran?
      modifies this
      ensures state == old(state) && Enter(On(event), fuel, old(Snapshot()), p, byDefault) == Ran(Snapshot(), at)
      decreases fuel - 1, 4, 0
    {
      hide Enter, Fire, EnterAll, EnterRecorded, EnterUnrecorded;
      EntersHistory(On(event), fuel, Snapshot(), p, byDefault);
      var k := model.vertices[p].kind;
      var resolved := ResolveHistory(Dir(p), k);
      if resolved.None? {
        at := FollowHistoryDefault(fuel - 1, event, p);
      } else {
        assert p != [] by { assert Owned(model, p); }
        assert IsHistoryOf(model, p, Dir(p)) && OwnsHistory(model, Dir(p));
        var path := LookupPath(index.historyPaths, Dir(p), resolved.value);
        if path == [] {
          at := Some(p);
        } else {
          at := EnterRecordedPath(fuel - 1, event, path, k.ShallowHistory?);
        }
      }
    }

    method FollowHistoryDefault(ghost fuel: nat, event: Event, history: Path) returns (at: Option<Path>)
      requires Valid() && history in model.vertices
      requires EnterUnrecorded(On(event), fuel, Snapshot(), history).Ran?
      modifies this
      ensures state == old(state) && EnterUnrecorded(On(event), fuel, old(Snapshot()), history) == Ran(Snapshot(), at)
      decreases fuel, 3, 0
    {
      hide Enter, Fire, EnterAll, EnterRecorded;
      FirstEnabledFacts(On(event), Snapshot(), model.vertices[history].transitions);
      var t := FirstEnabledTransition(event, model.vertices[history].transitions);
      at := None;
      if t.Some? {
        at := FireTransition(fuel, event, history, t.value);
      }
      if at.None? {
        var owner := Dir(history);
        var initial := if HasState(model, owner) then InitialTransition(model, owner) else None;
        if initial.Some? {
          InitialFacts(model, owner);
          at := FireTransition(fuel, event, owner, initial.value);
        } else {
          at := Some(history);
        }
      }
    }

    method EnterRecordedPath(ghost fuel: nat, event: Event, path: seq<Path>, shallow: bool) returns (at: Option<Path>)
      requires Valid() && path != []
      requires EnterRecorded(On(event), fuel, Snapshot(), path, shallow).Ran?
      modifies this
      ensures state == old(state)
      ensures EnterRecorded(On(event), fuel, old(Snapshot()), path, shallow) == Ran(Snapshot(), at)
      decreases fuel, 1, |path|
    {
      hide Enter, Fire, EnterAll, EnterUnrecorded;
      var i := 0;
      at := None;
      while i < |path|
        invariant 0 <= i <= |path| && state == old(state)
        invariant i < |path| ==> EnterRecorded(On(event), fuel, old(Snapshot()), path, shallow) ==
                                 EnterRecorded(On(event), fuel, Snapshot(), path[i..], shallow)
        invariant i == |path| ==> EnterRecorded(On(event), fuel, old(Snapshot()), path, shallow) == Ran(Snapshot(), at)
      {
        assert path[i..][1..] == path[i + 1..] && path[i..][0] == path[i];
        if path[i] !in model.vertices {
          return None;
        }
        at := EnterElement(fuel, event, path[i], shallow && i == |path| - 1);
        i := i + 1;
      }
    }

    method FireTransition(ghost fuel: nat, event: Event, current: Path, t: Transition) returns (at: Option<Path>)
      requires Valid() && t.name in model.transitions && model.transitions[t.name] == t
      requires Fire(On(event), fuel, Snapshot(), current, t).Ran?
      modifies this
      ensures state == old(state) && Fire(On(event), fuel, old(Snapshot()), current, t) == Ran(Snapshot(), at)
      decreases fuel, 2, 0
    {
      hide Enter, EnterAll, EnterRecorded, EnterUnrecorded, RouteOf;
      assert CompiledRoutes(model, t, index.transitionPaths[t.name]);
      if current !in index.transitionPaths[t.name] {
        return None;
      }
      var route := index.transitionPaths[t.name][current];
      var skip := HistoryOwner(model, t);
      if |route.exit| > 0 {
        if skip.Some? {
          assert IsHistoryOf(model, t.target.value, skip.value) by { assert Owned(model, t.target.value); }
          assert OwnsHistory(model, skip.value);
        }
        RecordHistory(current, skip);
      }
      var left := ExitStates(event, route.exit);
      if !left {
        return None;
      }
      Execute(event, Effect(t.name));
      if t.kind.Internal? {
        return Some(current);
      }
      at := EnterStates(fuel, event, route.enter, t.target);
    }

    method ExitStates(event: Event, exit: seq<Path>) returns (left: bool)
      modifies this
      ensures state == old(state) && (Snapshot(), left) == ExitAll(On(event), old(Snapshot()), exit)
    {
      var i := 0;
      while i < |exit|
        invariant 0 <= i <= |exit| && state == old(state)
        invariant ExitAll(On(event), old(Snapshot()), exit) == ExitAll(On(event), Snapshot(), exit[i..])
      {
        assert exit[i..][1..] == exit[i + 1..];
        if exit[i] !in model.vertices {
          return false;
        }
        ExitElement(event, exit[i]);
        i := i + 1;
      }
      return true;
    }

    method EnterStates(ghost fuel: nat, event: Event, enter: seq<Path>, target: Option<Path>) returns (at: Option<Path>)
      requires Valid()
      requires EnterAll(On(event), fuel, Snapshot(), enter, target).Ran?
      modifies this
      ensures state == old(state) && EnterAll(On(event), fuel, old(Snapshot()), enter, target) == Ran(Snapshot(), at)
      decreases fuel, 1, |enter|
    {
      hide Enter, Fire, EnterRecorded, EnterUnrecorded;
      var i := 0;
      while i < |enter|
        invariant 0 <= i <= |enter| && state == old(state)
        invariant EnterAll(On(event), fuel, old(Snapshot()), enter, target) ==
                  EnterAll(On(event), fuel, Snapshot(), enter[i..], target)
      {
        assert enter[i..][1..] == enter[i + 1..] && enter[i..][0] == enter[i];
        if enter[i] !in model.vertices {
          return None;
        }
        at := EnterElement(fuel, event, enter[i], Some(enter[i]) == target);
        if at.None? || Some(enter[i]) == target {
          return at;
        }
        i := i + 1;
      }
      at := if target.Some? && target.value in model.vertices then target else None;
    }

    // ----- handling events -----

    ghost function Current(): Machine
      reads this
    {
      Machine(state, Snapshot())
    }

    /** Start: enter the root, following its initial transition. */
    method Start(ghost fuel: nat, initial: Event)
      requires Valid() && Snapshot() == World(map[], map[], EMPTY, 0, [], [])
      requires RunToCompletion.Start(model, env, fuel, initial).Some?
      modifies this
      ensures RunToCompletion.Start(model, env, fuel, initial) == Some(Current())
      ensures Sound(model, Current()) && (WellFormed(model) ==> Settled(model, Current()))
    {
      StartIsSound(model, env, fuel, initial);
      if WellFormed(model) {
        StartSettles(model, env, fuel, initial);
      }
      var at := EnterElement(fuel, initial, model.root, true);
      if at.Some? {
        state := at.value;
      }
    }

    /** One pass over a table row: skip what the deferral owner rules out, fire the first
        enabled transition, then stop. */
    method TryTransitions(ghost fuel: nat, event: Event, row: seq<Transition>, owner: Option<Path>)
      returns (taken: Option<Transition>)
      requires Valid() && Live(model, state, row)
      requires TryRow(On(event), fuel, Current(), WithOwner(model, row, owner)).Tried?
      modifies this
      ensures TryRow(On(event), fuel, old(Current()), WithOwner(model, row, owner)) == Tried(Current(), taken)
    {
      hide Fire, HandlesAtOrBelow, Enabled;
      var i := 0;
      while i < |row|
        invariant 0 <= i <= |row| && state == old(state)
        invariant Choose(On(event), old(Snapshot()), WithOwner(model, row, owner)) ==
                  Choose(On(event), Snapshot(), WithOwner(model, row[i..], owner))
      {
        assert row[i..][1..] == row[i + 1..];
        var t := row[i];
        if owner.None? || HandlesAtOrBelow(t, owner.value, model.root) {
          var rest := WithOwner(model, row[i + 1..], owner);
          assert WithOwner(model, row[i..], owner) == [t] + rest && ([t] + rest)[1..] == rest;
          var matches := TransitionEnabled(event, t);
          if matches {
            var at := FireTransition(fuel, event, state, t);
            if at.Some? {
              state := at.value;
              return Some(t);
            }
            return None;
          }
        }
        i := i + 1;
      }
      return None;
    }

    method HandleEvent(ghost fuel: nat, event: Event) returns (taken: Option<Transition>, owner: Option<Path>)
      requires Valid() && Sound(model, Current())
      requires ProcessEvent(On(event), fuel, Current()).Handled?
      modifies this
      ensures ProcessEvent(On(event), fuel, old(Current())) == Handled(Current(), taken, owner)
      ensures Sound(model, Current())
      ensures WellFormed(model) && Settled(model, old(Current())) ==> Settled(model, Current())
    {
      hide TryRow, Row, TableOwner, WithOwner, Settled, Live, Sound;
      ProcessEventKeepsSound(On(event), fuel, Current());
      if WellFormed(model) && Settled(model, Current()) {
        ProcessEventSettles(On(event), fuel, Current());
      }
      assert RowsFor(model, state, index.transitionMap[state], index.deferredMap[state]) by {
        StateIsVertex(model, Current());
      }
      owner := LookupOwner(index.deferredMap[state], event.name);
      var row := Lookup(index.transitionMap[state], event.name);
      var anyRow := Lookup(index.transitionMap[state], ANY_EVENT);
      assert row == Row(model, state, state, event.name) && anyRow == Row(model, state, state, ANY_EVENT);
      RowLive(model, state, state, event.name);
      RowLive(model, state, state, ANY_EVENT);
      UntakenRow(On(event), fuel, Current(), Candidates(model, state, event.name, owner));
      taken := TryTransitions(fuel, event, row, owner);
      if taken.None? && event.name != ANY_EVENT {
        taken := TryTransitions(fuel, event, anyRow, owner);
      }
      if taken.Some? {
        owner := None;
      }
    }

    /** Take the next event, after whatever other goroutines have pushed by now. */
    method Pop() returns (next: Option<Event>)
      modifies this
      ensures state == old(state)
      ensures var w := Arrive(env, old(Snapshot()));
              if IsEmpty(w.queue) then next.None? && Snapshot() == w
              else next == Some(Head(w.queue)) && Snapshot() == w.(queue := Rest(w.queue))
    {
      var es := env.arrive(clock);
      queue, clock, raised := PushAll(queue, es), clock + 1, raised + es;
      if IsEmpty(queue) {
        next := None;
      } else {
        next := Some(Head(queue));
        queue := Rest(queue);
      }
    }

    /** Climb from the deferring state to the innermost enclosing submachine state. */
    method IsDiscarded(source: Option<Path>, d: Deferred) returns (discard: bool)
      ensures discard == Discards(model, state, source, d)
    {
      var current := Dir(d.owner);
      while current != []
        invariant Enclosing(model, Dir(d.owner)) == Enclosing(model, current)
        decreases |current|
      {
        if current in model.vertices && current != model.root && model.vertices[current].kind.Submachine? {
          return state != current && !IsAncestor(current, state)
              && !(source.Some? && IsAncestor(current, source.value));
        }
        if current == model.root {
          return false;
        }
        current := Dir(current);
      }
      return false;
    }

    /** Send the deferred events back to the queue, except the discarded ones. */
    method Replay(source: Option<Path>, deferred: seq<Deferred>)
      modifies this
      ensures Current() == PushEvents(old(Current()), Kept(model, old(state), source, deferred))
    {
      hide Discards, Kept, PushAll;
      var i := 0;
      KeptNone(model, state, source);
      PushNone(queue);
      assert deferred[..0] == [];
      while i < |deferred|
        invariant 0 <= i <= |deferred|
        invariant Current() == PushEvents(old(Current()), Kept(model, old(state), source, deferred[..i]))
      {
        assert deferred[..i + 1] == deferred[..i] + [deferred[i]];
        KeptSnoc(model, state, source, deferred[..i], deferred[i]);
        PushSnoc(old(queue), Kept(model, state, source, deferred[..i]), deferred[i].event);
        var discard := IsDiscarded(source, deferred[i]);
        if !discard {
          queue := Push(queue, deferred[i].event);
        }
        i := i + 1;
      }
      assert deferred[..|deferred|] == deferred;
    }

    method PushBack(deferred: seq<Deferred>)
      modifies this
      ensures Current() == PushEvents(old(Current()), Events(deferred))
    {
      var i := 0;
      while i < |deferred|
        invariant 0 <= i <= |deferred|
        invariant Current() == PushEvents(old(Current()), Events(deferred[..i]))
      {
        assert deferred[..i + 1][..i] == deferred[..i];
        queue := Push(queue, deferred[i].event);
        i := i + 1;
      }
      assert deferred[..|deferred|] == deferred;
    }

    /** One turn of the process loop on the locals `deferred` and the fields. */
    method Turn(ghost fuel: nat, currentId: string, ghost l: Loop, deferred: seq<Deferred>)
      returns (more: bool, ghost l': Loop, deferred': seq<Deferred>)
      requires Valid() && Sound(model, l.machine)
      requires l.machine == Current() && l.deferred == deferred
      requires !Iterate(model, env, fuel, currentId, l).Lost?
      modifies this
      ensures Iterate(model, env, fuel, currentId, l) == if more then Running(l') else Ended(l')
      ensures Sound(model, l'.machine) && l'.machine == Current() && l'.deferred == deferred'
    {
      hide ProcessEvent, Sound, Settled, TableOwner;
      IterateKeepsSound(model, env, fuel, currentId, l);
      l', deferred' := l, deferred;
      var popped := Pop();
      if popped.None? {
        PushBack(deferred);
        l' := l.(machine := Current());
        return false, l', deferred;
      }
      more := true;
      QueueKeepsSound(model, l.machine, Current());
      var e := StripId(popped.value);
      if currentId != "" && popped.value.id != currentId {
        assert RowsFor(model, state, index.transitionMap[state], index.deferredMap[state]) by {
          StateIsVertex(model, Current());
        }
        var quick := LookupOwner(index.deferredMap[state], popped.value.name);
        if quick.Some? {
          deferred' := deferred + [Deferred(quick.value, e)];
          l' := Postpone(l, Current(), quick.value, e);
          return true, l', deferred';
        }
      }
      ghost var s := Current();
      var taken, owner := HandleEvent(fuel, e);
      if owner.Some? {
        deferred' := deferred + [Deferred(owner.value, e)];
        l' := Postpone(l, Current(), owner.value, e);
        return true, l', deferred';
      }
      l' := Consume(model, l, Handled(Current(), taken, owner), e);
      if taken.Some? && |deferred| > 0 {
        Replay(Some(taken.value.source), deferred);
        deferred' := [];
      }
    }

    /** The process loop. Its effect is the specified one, and where every transition lands it
        keeps the configuration invariant: the open states are exactly those on the chain to the
        current element. */
    method ProcessQueue(ghost fuel: nat, ghost turns: nat, currentId: string)
      requires Valid() && Sound(model, Current())
      requires Process(model, env, fuel, turns, currentId, Begin(Current())).Ended?
      modifies this
      ensures Process(model, env, fuel, turns, currentId, Begin(old(Current()))).Ended?
      ensures Process(model, env, fuel, turns, currentId, Begin(old(Current()))).loop.machine == Current()
      ensures Sound(model, Current())
      ensures WellFormed(model) && Settled(model, old(Current())) ==>
                Settled(model, Current()) && Open(trace) == ActiveChain(model, state)
    {
      hide Iterate, Sound;
      if WellFormed(model) && Settled(model, Current()) {
        ProcessSettles(model, env, fuel, turns, currentId, Begin(Current()));
      }
      ghost var l, left := Begin(Current()), turns;
      var deferred: seq<Deferred> := [];
      var more := true;
      while more
        invariant Sound(model, l.machine) && l.machine == Current() && l.deferred == deferred
        invariant Process(model, env, fuel, turns, currentId, Begin(old(Current()))) ==
                  if more then Process(model, env, fuel, left, currentId, l) else Ended(l)
        invariant more ==> left > 0
        decreases more, left
      {
        ghost var before := l;
        more, l, deferred := Turn(fuel, currentId, l, deferred);
        left := left - 1;
        assert more ==>
            Process(model, env, fuel, left + 1, currentId, before)
            == Process(model, env, fuel, left, currentId, l);
      }
    }
  }
}
