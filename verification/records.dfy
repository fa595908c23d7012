/** What every run keeps in every model, whether or not its transitions arrive: the history records
    are ones that resolving uses, and the machine is at a vertex. */
module Records {
  import opened Options
  import opened Paths
  import opened Models
  import opened PathCompiler
  import opened EventQueue
  import opened Semantics
  import opened History
  import opened DispatchTables
  import opened RunToCompletion

  ghost predicate RecordsGood(m: Model, w: World) {
    GoodRecords(m, w.shallow, w.deep)
  }

  /** Whatever the step has come to, the records are good and an element reached is a vertex. */
  ghost predicate Keeps(m: Model, step: Result) {
    match step
    case Diverged => true
    case Ran(w, at) => RecordsGood(m, w) && (at.Some? ==> at.value in m.vertices)
  }

  lemma SameRecords(m: Model, w: World, after: World)
    requires RecordsGood(m, w) && after.shallow == w.shallow && after.deep == w.deep
    ensures RecordsGood(m, after)
  {
  }

  lemma {:induction false} FirstEnabledSameRecords(c: Context, w: World, names: seq<Path>)
    ensures var w' := FirstEnabled(c, w, names).0; w'.shallow == w.shallow && w'.deep == w.deep
    decreases names
  {
    if names != [] {
      var w' := if names[0] in c.model.transitions then Enabled(c, w, c.model.transitions[names[0]]).0 else w;
      FirstEnabledSameRecords(c, w', names[1..]);
    }
  }

  lemma RecordKeepsRecords(m: Model, w: World, s: Path, skip: Option<Path>)
    requires Nested(m) && RecordsGood(m, w)
    ensures RecordsGood(m, Record(m, w, s, skip))
  {
    if HasState(m, s) {
      RecordingKeepsGood(m, w.shallow, w.deep, s, skip);
    }
  }

  lemma {:induction false} EnterKeepsRecords(c: Context, fuel: nat, w: World, p: Path, byDefault: bool)
    requires Nested(c.model) && RecordsGood(c.model, w) && p in c.model.vertices
    ensures Keeps(c.model, Enter(c, fuel, w, p, byDefault))
    decreases fuel, 0, 0
  {
    hide Fire, EnterAll, EnterRecorded, EnterUnrecorded, FirstEnabled, PushAll, HistoryPath, GoodRecords, Nested;
    var v := c.model.vertices[p];
    if fuel == 0 {
    } else if IsComposite(v.kind) {
      var w1, initial := Perform(c, w, Entered(p)), InitialTransition(c.model, p);
      if byDefault && initial.Some? {
        FireKeepsRecords(c, fuel - 1, w1, p, initial.value);
      }
    } else if v.kind.Choice? {
      var (w1, t) := FirstEnabled(c, w, v.transitions);
      FirstEnabledSameRecords(c, w, v.transitions);
      if t.Some? {
        FireKeepsRecords(c, fuel - 1, w1, p, t.value);
      }
    } else if IsHistory(v.kind) {
      var recorded := Recall(w, v.kind, Dir(p));
      if recorded.None? {
        UnrecordedKeepsRecords(c, fuel - 1, w, p);
      } else if HistoryPath(c.model, Dir(p), recorded.value) != [] {
        RecordedKeepsRecords(c, fuel - 1, w, HistoryPath(c.model, Dir(p), recorded.value), v.kind.ShallowHistory?);
      }
    }
  }

  lemma {:induction false} UnrecordedKeepsRecords(c: Context, fuel: nat, w: World, history: Path)
    requires Nested(c.model) && RecordsGood(c.model, w) && history in c.model.vertices
    ensures Keeps(c.model, EnterUnrecorded(c, fuel, w, history))
    decreases fuel, 3, 0
  {
    hide Enter, Fire, EnterAll, EnterRecorded, GoodRecords, Nested, FirstEnabled;
    var (w1, t) := FirstEnabled(c, w, c.model.vertices[history].transitions);
    FirstEnabledSameRecords(c, w, c.model.vertices[history].transitions);
    var followed := if t.Some? then Fire(c, fuel, w1, history, t.value) else Ran(w1, None);
    if t.Some? {
      FireKeepsRecords(c, fuel, w1, history, t.value);
    }
    var owner := Dir(history);
    var initial := if HasState(c.model, owner) then InitialTransition(c.model, owner) else None;
    if followed.Ran? && followed.at.None? && initial.Some? {
      FireKeepsRecords(c, fuel, followed.world, owner, initial.value);
    }
  }

  lemma {:induction false} RecordedKeepsRecords(c: Context, fuel: nat, w: World, path: seq<Path>, shallow: bool)
    requires Nested(c.model) && RecordsGood(c.model, w) && path != []
    ensures Keeps(c.model, EnterRecorded(c, fuel, w, path, shallow))
    decreases fuel, 1, |path|
  {
    hide Enter, Fire, EnterAll, EnterUnrecorded, GoodRecords, Nested;
    if path[0] in c.model.vertices {
      EnterKeepsRecords(c, fuel, w, path[0], shallow && |path| == 1);
      var step := Enter(c, fuel, w, path[0], shallow && |path| == 1);
      if step.Ran? && |path| > 1 {
        RecordedKeepsRecords(c, fuel, step.world, path[1..], shallow);
      }
    }
  }

  lemma {:induction false} EnterAllKeepsRecords(c: Context, fuel: nat, w: World, enter: seq<Path>,
          target: Option<Path>)
    requires Nested(c.model) && RecordsGood(c.model, w)
    ensures Keeps(c.model, EnterAll(c, fuel, w, enter, target))
    decreases fuel, 1, |enter|
  {
    hide Enter, Fire, EnterRecorded, EnterUnrecorded, GoodRecords, Nested;
    if enter != [] && enter[0] in c.model.vertices {
      var byDefault := Some(enter[0]) == target;
      EnterKeepsRecords(c, fuel, w, enter[0], byDefault);
      var step := Enter(c, fuel, w, enter[0], byDefault);
      if step.Ran? && step.at.Some? && !byDefault {
        EnterAllKeepsRecords(c, fuel, step.world, enter[1..], target);
      }
    }
  }

  lemma ReachedIsVertex(m: Model, t: Transition, current: Path)
    requires Nested(m) && Reaches(m, t, current)
    ensures current in m.vertices
  {
    assert Owned(m, t.source);
  }

  lemma {:induction false} FireKeepsRecords(c: Context, fuel: nat, w: World, current: Path, t: Transition)
    requires Nested(c.model) && RecordsGood(c.model, w)
    ensures Keeps(c.model, Fire(c, fuel, w, current, t))
    decreases fuel, 2, 0
  {
    hide Enter, EnterAll, EnterRecorded, EnterUnrecorded, RouteOf, ExitAll, GoodRecords, Nested, Record;
    var m := c.model;
    if Reaches(m, t, current) {
      ReachedIsVertex(m, t, current);
      var route := RouteOf(m, t, current);
      var w1 := if route.exit != [] then Record(m, w, current, HistoryOwner(m, t)) else w;
      RecordKeepsRecords(m, w, current, HistoryOwner(m, t));
      ExitAllKeepsRecords(c, w1, route.exit);
      var w3 := Perform(c, ExitAll(c, w1, route.exit).0, Effect(t.name));
      EnterAllKeepsRecords(c, fuel, w3, route.enter, t.target);
    }
  }

  // ----- over events and runs -----

  ghost predicate Sound(m: Model, s: Machine) {
    s.state in m.vertices && RecordsGood(m, s.world)
  }

  lemma SettledIsSound(m: Model, s: Machine)
    requires Nested(m) && Settled(m, s)
    ensures Sound(m, s)
  {
    CoherentRecords(m, s.world);
  }

  lemma TryRowKeepsSound(c: Context, fuel: nat, s: Machine, ts: seq<Transition>)
    requires Nested(c.model) && Sound(c.model, s)
    ensures var a := TryRow(c, fuel, s, ts); a.Tried? ==> Sound(c.model, a.machine)
  {
    hide Fire, GoodRecords, Nested;
    ChooseFacts(c, s.world, ts);
    var (w, t) := Choose(c, s.world, ts);
    if t.Some? {
      FireKeepsRecords(c, fuel, w, s.state, t.value);
    }
  }

  lemma ProcessEventKeepsSound(c: Context, fuel: nat, s: Machine)
    requires Nested(c.model) && Sound(c.model, s)
    ensures var h := ProcessEvent(c, fuel, s); h.Handled? ==> Sound(c.model, h.machine)
  {
    hide TryRow, Candidates, Sound, Nested, TableOwner;
    var m, e := c.model, c.event.name;
    var owner := TableOwner(m, s.state, s.state, e);
    TryRowKeepsSound(c, fuel, s, Candidates(m, s.state, e, owner));
    var specific := TryRow(c, fuel, s, Candidates(m, s.state, e, owner));
    if specific.Tried? {
      TryRowKeepsSound(c, fuel, specific.machine, Candidates(m, s.state, ANY_EVENT, owner));
    }
  }

  lemma QueueKeepsSound(m: Model, s: Machine, after: Machine)
    requires Sound(m, s) && after.state == s.state
    requires after.world.shallow == s.world.shallow && after.world.deep == s.world.deep
    ensures Sound(m, after)
  {
  }

  ghost predicate ProgressSound(m: Model, next: Progress) {
    next.Running? || next.Ended? ==> Sound(m, next.loop.machine)
  }

  lemma IterateKeepsSound(m: Model, env: Env, fuel: nat, currentId: string, l: Loop)
    requires Nested(m) && Sound(m, l.machine)
    ensures ProgressSound(m, Iterate(m, env, fuel, currentId, l))
  {
    hide ProcessEvent, TableOwner, Sound, Nested, PushAll, Kept, Dropped;
    var w := Arrive(env, l.machine.world);
    if IsEmpty(w.queue) {
      QueueKeepsSound(m, l.machine, PushEvents(l.machine.(world := w), Events(l.deferred)));
    } else {
      var s := l.machine.(world := w.(queue := Rest(w.queue)));
      QueueKeepsSound(m, l.machine, s);
      var e := StripId(Head(w.queue));
      ProcessEventKeepsSound(Context(m, env, e), fuel, s);
      var h := ProcessEvent(Context(m, env, e), fuel, s);
      if h.Handled? {
        QueueKeepsSound(m, h.machine, Consume(m, l, h, e).machine);
      }
    }
  }

  lemma {:induction false} ProcessKeepsSound(m: Model, env: Env, fuel: nat, turns: nat, currentId: string, l: Loop)
    requires Nested(m) && Sound(m, l.machine)
    ensures ProgressSound(m, Process(m, env, fuel, turns, currentId, l))
    decreases turns
  {
    hide Iterate, Sound, Nested;
    if turns > 0 {
      IterateKeepsSound(m, env, fuel, currentId, l);
      var next := Iterate(m, env, fuel, currentId, l);
      if next.Running? {
        ProcessKeepsSound(m, env, fuel, turns - 1, currentId, next.loop);
      }
    }
  }

  lemma StartIsSound(m: Model, env: Env, fuel: nat, initial: Event)
    requires Nested(m)
    ensures var s := Start(m, env, fuel, initial); s.Some? ==> Sound(m, s.value)
  {
    hide Enter;
    EnterKeepsRecords(Context(m, env, initial), fuel, World(map[], map[], EMPTY, 0, [], []), m.root, true);
  }

  lemma {:induction false} RunKeepsSound(m: Model, env: Env, fuel: nat, turns: nat, s: Machine,
          activations: seq<Activation>)
    requires Nested(m) && Sound(m, s)
    ensures var after := Run(m, env, fuel, turns, s, activations); after.Some? ==> Sound(m, after.value)
    decreases activations
  {
    hide Process, Sound, Nested, PushAll;
    if activations != [] {
      var a := activations[0];
      var begun := PushEvents(s, a.events);
      QueueKeepsSound(m, s, begun);
      ProcessKeepsSound(m, env, fuel, turns, a.currentId, Begin(begun));
      var ended := Process(m, env, fuel, turns, a.currentId, Begin(begun));
      if ended.Ended? {
        RunKeepsSound(m, env, fuel, turns, ended.loop.machine, activations[1..]);
      }
    }
  }

  /** History map invariant: after the start and any number of process runs of any model, whatever
      guards, behaviours and other goroutines do and even if a transition has stranded the machine,
      shallow records are direct child states, deep ones strict descendants, those of one state
      agree, and resolving discards none. */
  lemma EveryRecordIsUsed(m: Model, env: Env, fuel: nat, turns: nat, initial: Event, activations: seq<Activation>,
          p: Path)
    requires Nested(m) && Start(m, env, fuel, initial).Some?
    ensures var after := Run(m, env, fuel, turns, Start(m, env, fuel, initial).value, activations);
            after.Some? ==>
              var (state, w) := (after.value.state, after.value.world);
              && state in m.vertices
              && GoodRecordsAt(m, w.shallow, w.deep, p)
              && (p in w.shallow ==> Recall(w, ShallowHistory, p) == Some(w.shallow[p]))
              && (p in w.deep ==> Recall(w, DeepHistory, p) == Some(w.deep[p]))
  {
    hide Start, Run, Recall;
    StartIsSound(m, env, fuel, initial);
    RunKeepsSound(m, env, fuel, turns, Start(m, env, fuel, initial).value, activations);
    var after := Run(m, env, fuel, turns, Start(m, env, fuel, initial).value, activations);
    if after.Some? {
      assert RecordsGood(m, after.value.world);
      RecallNeverDiscards(m, after.value.world, p);
    }
  }
}
