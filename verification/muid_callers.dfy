/** Any number of callers of one generator, interleaving at every read of the clock, load of the
    state word and compare-and-swap. */
module MuidCallers {
  import opened Bits
  import opened Muid

  /** Where a caller is in the retry loop. */
  datatype Caller = Idle | Sampled(now: nat) | Loaded(now: nat, previous: nat)

  datatype Issue = Issue(stamp: Stamp, id: nat)

  /** `issued` lists the successful swaps in order. */
  datatype Shared = Shared(state: nat, callers: map<nat, Caller>, issued: seq<Issue>)

  datatype Step = Sample(caller: nat, now: nat) | Load(caller: nat) | Swap(caller: nat)

  function At(s: Shared, caller: nat): Caller {
    if caller in s.callers then s.callers[caller] else Idle
  }

  predicate Enabled(s: Shared, step: Step) {
    match step
    case Sample(c, _) => At(s, c).Idle?
    case Load(c) => At(s, c).Sampled?
    case Swap(c) => At(s, c).Loaded?
  }

  /** A failed swap sends the caller back to the clock, a successful one issues an identifier. */
  function Do(l: Layout, s: Shared, step: Step): Shared
    requires Enabled(s, step)
  {
    match step
    case Sample(c, now) => s.(callers := s.callers[c := Sampled(now)])
    case Load(c) => s.(callers := s.callers[c := Loaded(At(s, c).now, s.state)])
    case Swap(c) =>
      var stamp := Advance(l, Unpack(l, At(s, c).previous), At(s, c).now);
      var s' := s.(callers := s.callers[c := Idle]);
      if s.state != At(s, c).previous then s'
      else s'.(state := PackState(l, stamp), issued := s.issued + [Issue(stamp, PackId(l, stamp))])
  }

  predicate Executable(l: Layout, steps: seq<Step>)
    decreases |steps|, 0
  {
    steps == [] || (Executable(l, steps[..|steps| - 1]) && Enabled(After(l, steps[..|steps| - 1]), steps[|steps| - 1]))
  }

  function After(l: Layout, steps: seq<Step>): Shared
    requires Executable(l, steps)
    decreases |steps|, 1
  {
    if steps == [] then Shared(1, map[], []) else Do(l, After(l, steps[..|steps| - 1]), steps[|steps| - 1])
  }

  /** The stamp the state word stands for while timestamps fit. */
  function Last(s: Shared): Stamp {
    if s.issued == [] then Stamp(0, 1) else s.issued[|s.issued| - 1].stamp
  }

  predicate Fits(l: Layout, s: Shared) {
    forall i :: 0 <= i < |s.issued| ==> s.issued[i].stamp.time < Pow2(l.timestampBits)
  }

  ghost predicate Ordered(l: Layout, s: Shared) {
    && s.state == PackState(l, Last(s)) && InRange(l, Last(s)) && Last(s).time < Pow2(l.timestampBits)
    && (forall i :: 0 <= i < |s.issued| ==>
          InRange(l, s.issued[i].stamp) && s.issued[i].id == PackId(l, s.issued[i].stamp))
    && (forall i, j :: 0 <= i < j < |s.issued| ==> Later(s.issued[i].stamp, s.issued[j].stamp))
  }

  lemma StartIsOrdered(l: Layout)
    requires Valid(l) && l.counterBits >= 1
    ensures Ordered(l, Shared(1, map[], []))
  {
    OrIntoLowBits(0, 1, l.counterBits);
    assert Shl(0, l.counterBits) == 0;
    assert 0 * Pow2(l.counterBits) == 0;
  }

  /** The state word gives back the last stamp. */
  lemma StateIsLast(l: Layout, s: Shared)
    requires Valid(l) && Ordered(l, s)
    ensures Unpack(l, s.state) == Last(s)
  {
    hide Pow2, PackState, Unpack;
    StateUnpacks(l, Last(s));
    Pow2Grows(l.timestampBits, 64 - l.counterBits);
    SmallRemainder(Last(s).time, Pow2(64 - l.counterBits));
  }

  lemma StepKeepsOrder(l: Layout, s: Shared, step: Step)
    requires Valid(l) && Ordered(l, s) && Enabled(s, step) && Fits(l, Do(l, s, step))
    ensures Ordered(l, Do(l, s, step))
  {
    hide Pow2, PackState, PackId, Unpack;
    var s' := Do(l, s, step);
    StateIsLast(l, s);
    if |s'.issued| > |s.issued| {
      assert Later(Last(s), Last(s'));
      forall i, j | 0 <= i < j < |s'.issued|
        ensures Later(s'.issued[i].stamp, s'.issued[j].stamp)
      {
        assert i < |s.issued| - 1 ==> Later(s.issued[i].stamp, Last(s));
      }
    }
  }

  lemma {:induction false} AlwaysOrdered(l: Layout, steps: seq<Step>)
    requires Valid(l) && l.counterBits >= 1 && Executable(l, steps) && Fits(l, After(l, steps))
    ensures Ordered(l, After(l, steps))
    decreases |steps|
  {
    hide Ordered, Pow2;
    if steps == [] {
      StartIsOrdered(l);
    } else {
      var before := After(l, steps[..|steps| - 1]);
      FitsBefore(l, steps);
      AlwaysOrdered(l, steps[..|steps| - 1]);
      StepKeepsOrder(l, before, steps[|steps| - 1]);
    }
  }

  // ----- layouts without a counter bit -----

  /** The state word is then the last time with its lowest bit set. */
  ghost predicate OrderedByTime(l: Layout, s: Shared) {
    && s.state == (if s.issued == [] then 1 else Odd(s.issued[|s.issued| - 1].stamp.time))
    && (forall i :: 0 <= i < |s.issued| ==>
          s.issued[i].stamp.counter == 1 && s.issued[i].id == PackId(l, s.issued[i].stamp))
    && (forall i, j :: 0 <= i < j < |s.issued| ==> Odd(s.issued[i].stamp.time) < s.issued[j].stamp.time)
  }

  lemma StepKeepsTimeOrder(l: Layout, s: Shared, step: Step)
    requires Valid(l) && l.counterBits == 0 && OrderedByTime(l, s) && Enabled(s, step) && Fits(l, Do(l, s, step))
    ensures OrderedByTime(l, Do(l, s, step))
  {
    PowZero();
    hide Pow2, PackState, PackId, Unpack;
    var s' := Do(l, s, step);
    if |s'.issued| > |s.issued| {
      var last := s'.issued[|s.issued|];
      StateWithoutCounter(l, last.stamp.time);
      assert last.stamp == Stamp(last.stamp.time, 1) && last.stamp.time > s.state;
      forall i, j | 0 <= i < j < |s'.issued|
        ensures Odd(s'.issued[i].stamp.time) < s'.issued[j].stamp.time
      {
        assert i < |s.issued| - 1 ==> Odd(s.issued[i].stamp.time) < s.issued[|s.issued| - 1].stamp.time;
      }
    }
  }

  lemma {:induction false} AlwaysOrderedByTime(l: Layout, steps: seq<Step>)
    requires Valid(l) && l.counterBits == 0 && Executable(l, steps) && Fits(l, After(l, steps))
    ensures OrderedByTime(l, After(l, steps))
    decreases |steps|
  {
    if steps != [] {
      hide OrderedByTime, Pow2;
      var before := After(l, steps[..|steps| - 1]);
      FitsBefore(l, steps);
      AlwaysOrderedByTime(l, steps[..|steps| - 1]);
      StepKeepsTimeOrder(l, before, steps[|steps| - 1]);
    }
  }

  lemma FitsBefore(l: Layout, steps: seq<Step>)
    requires Executable(l, steps) && steps != [] && Fits(l, After(l, steps))
    ensures Fits(l, After(l, steps[..|steps| - 1]))
  {
    hide Pow2, PackState, PackId;
    var before, s' := After(l, steps[..|steps| - 1]), After(l, steps);
    assert forall i :: 0 <= i < |before.issued| ==> s'.issued[i] == before.issued[i];
  }

  /** Over every interleaving identifiers strictly increase in swap order while timestamps fit. */
  lemma IssuedIncrease(l: Layout, steps: seq<Step>, i: nat, j: nat)
    requires Valid(l) && Executable(l, steps) && Fits(l, After(l, steps))
    requires i < j < |After(l, steps).issued|
    ensures After(l, steps).issued[i].id < After(l, steps).issued[j].id
  {
    hide Pow2, PackState, PackId;
    var s := After(l, steps);
    if l.counterBits == 0 {
      AlwaysOrderedByTime(l, steps);
      LaterTimeIsGreater(l, s.issued[i].stamp.time, s.issued[j].stamp.time);
    } else {
      AlwaysOrdered(l, steps);
      LaterIsGreater(l, s.issued[i].stamp, s.issued[j].stamp);
    }
  }

  // ----- how far the virtual clock can run ahead -----

  /** No caller has read the clock beyond `limit`. */
  predicate ReadingsUpTo(steps: seq<Step>, limit: nat) {
    forall i :: 0 <= i < |steps| && steps[i].Sample? ==> steps[i].now <= limit
  }

  /** A stamp's place in the order of all stamps: there are `Mask` counters to a timestamp. */
  function Position(l: Layout, stamp: Stamp): int {
    stamp.time * Mask(l) + stamp.counter - 1
  }

  ghost predicate Drifted(l: Layout, s: Shared, limit: nat) {
    && InRange(l, Unpack(l, s.state))
    && Position(l, Unpack(l, s.state)) <= limit * Mask(l) + |s.issued|
    && (forall i :: 0 <= i < |s.issued| ==>
          s.issued[i].stamp.counter >= 1 && Position(l, s.issued[i].stamp) <= limit * Mask(l) + i + 1)
    && (forall c :: c in s.callers && !s.callers[c].Idle? ==> s.callers[c].now <= limit)
  }

  /** Each swap moves at most one place beyond the last, or to the start of a timestamp read. */
  lemma AdvanceMovesOnePlace(l: Layout, last: Stamp, now: nat, limit: nat, n: nat)
    requires InRange(l, last) && now <= limit && Position(l, last) <= limit * Mask(l) + n
    ensures InRange(l, Advance(l, last, now))
    ensures Position(l, Advance(l, last, now)) <= limit * Mask(l) + n + 1
  {
    if now > last.time {
      MulGrows(now, limit, Mask(l));
    } else if last.counter >= Mask(l) {
      Distribute(last.time, 1, Mask(l));
    }
  }

  /** A timestamp too wide for the state word only ever moves it back. */
  lemma PackingMovesBack(l: Layout, stamp: Stamp)
    requires Valid(l) && InRange(l, stamp)
    ensures InRange(l, Unpack(l, PackState(l, stamp)))
    ensures Position(l, Unpack(l, PackState(l, stamp))) <= Position(l, stamp)
  {
    hide Pow2, PackState, Unpack;
    StateUnpacks(l, stamp);
    var w := Pow2(64 - l.counterBits);
    assert stamp.time % w <= stamp.time;
    MulGrows(stamp.time % w, stamp.time, Mask(l));
  }

  lemma StepKeepsDrift(l: Layout, s: Shared, step: Step, limit: nat)
    requires Valid(l) && Drifted(l, s, limit) && Enabled(s, step) && (step.Sample? ==> step.now <= limit)
    ensures Drifted(l, Do(l, s, step), limit)
  {
    hide Position, PackState, PackId, Unpack;
    if step.Swap? {
      var c := s.callers[step.caller];
      var last := Unpack(l, s.state);
      var stamp := Advance(l, last, c.now);
      AdvanceMovesOnePlace(l, last, c.now, limit, |s.issued|);
      PackingMovesBack(l, stamp);
    }
  }

  lemma {:induction false} AlwaysDrifted(l: Layout, steps: seq<Step>, limit: nat)
    requires Valid(l) && l.counterBits >= 1 && Executable(l, steps) && ReadingsUpTo(steps, limit)
    ensures Drifted(l, After(l, steps), limit)
    decreases |steps|
  {
    hide Drifted;
    if steps == [] {
      StartIsDrifted(l, limit);
    } else {
      AlwaysDrifted(l, steps[..|steps| - 1], limit);
      StepKeepsDrift(l, After(l, steps[..|steps| - 1]), steps[|steps| - 1], limit);
    }
  }

  lemma StartIsDrifted(l: Layout, limit: nat)
    requires Valid(l) && l.counterBits >= 1
    ensures Drifted(l, Shared(1, map[], []), limit)
  {
    StartIsOrdered(l);
    StateIsLast(l, Shared(1, map[], []));
  }

  /** After `i + 1` identifiers, with every reading at most `limit`, the timestamp is at most
      `limit + (i + 1) / Mask`. */
  lemma DriftBound(l: Layout, steps: seq<Step>, limit: nat, i: nat)
    requires Valid(l) && l.counterBits >= 1 && Executable(l, steps) && ReadingsUpTo(steps, limit)
    requires i < |After(l, steps).issued|
    ensures Mask(l) > 0 && After(l, steps).issued[i].stamp.time <= limit + (i + 1) / Mask(l)
  {
    AlwaysDrifted(l, steps, limit);
    QuotientBound(After(l, steps).issued[i].stamp.time, limit, i + 1, Mask(l));
  }

  lemma QuotientBound(time: nat, limit: nat, n: nat, m: nat)
    requires m > 0 && time * m <= limit * m + n
    ensures time <= limit + n / m
  {
    if time > limit + n / m {
      MulGrows(limit + n / m + 1, time, m);
      Distribute(limit, n / m + 1, m);
    }
  }

  /** So identifiers increase for as long as the clock, plus one tick per `Mask` identifiers,
      stays within the timestamp field: no assumption is needed about the stamps themselves. */
  lemma IssuedIncreaseUntilOverflow(l: Layout, steps: seq<Step>, limit: nat, i: nat, j: nat)
    requires Valid(l) && Executable(l, steps) && ReadingsUpTo(steps, limit)
    requires Mask(l) > 0 && limit + |After(l, steps).issued| / Mask(l) < Pow2(l.timestampBits)
    requires i < j < |After(l, steps).issued|
    ensures After(l, steps).issued[i].id < After(l, steps).issued[j].id
  {
    hide PackId, PackState;
    var s := After(l, steps);
    forall k | 0 <= k < |s.issued|
      ensures s.issued[k].stamp.time < Pow2(l.timestampBits)
    {
      DriftBound(l, steps, limit, k);
      QuotientGrows(k + 1, |s.issued|, Mask(l));
    }
    IssuedIncrease(l, steps, i, j);
  }

  lemma QuotientGrows(a: nat, b: nat, m: nat)
    requires a <= b && m > 0
    ensures a / m <= b / m
  {
    QuotientBound(a / m, 0, b, m);
  }

  // ----- timestamps and clock readings -----

  /** The caller's last look at the clock, at step `i`, read `now`. */
  ghost predicate ReadAt(steps: seq<Step>, caller: nat, now: nat, i: int) {
    && 0 <= i < |steps| && steps[i] == Sample(caller, now)
    && forall j :: i < j < |steps| ==> !(steps[j].Sample? && steps[j].caller == caller)
  }

  lemma {:induction false} ReadingWasTaken(l: Layout, steps: seq<Step>, caller: nat) returns (i: nat)
    requires Executable(l, steps) && !At(After(l, steps), caller).Idle?
    ensures ReadAt(steps, caller, At(After(l, steps), caller).now, i)
    decreases |steps|
  {
    hide Advance, Unpack, PackState, PackId;
    var front, last := steps[..|steps| - 1], steps[|steps| - 1];
    if last.Sample? && last.caller == caller {
      i := |steps| - 1;
    } else {
      i := ReadingWasTaken(l, front, caller);
      assert forall j :: i < j < |steps| ==> if j == |steps| - 1 then steps[j] == last else steps[j] == front[j];
    }
  }

  /** The timestamp of an identifier is never before the clock reading it was made from, the last one
      its caller took, and is that reading itself whenever the clock has passed the generator. */
  lemma IssuedCoversReading(l: Layout, steps: seq<Step>, caller: nat) returns (i: nat)
    requires Executable(l, steps) && Enabled(After(l, steps), Swap(caller))
    requires After(l, steps).state == At(After(l, steps), caller).previous
    ensures var (s, s') := (After(l, steps), Do(l, After(l, steps), Swap(caller)));
            var now := At(s, caller).now;
            && ReadAt(steps, caller, now, i)
            && |s'.issued| == |s.issued| + 1 && s'.issued[..|s.issued|] == s.issued
            && s'.issued[|s.issued|].stamp.time >= now
            && (now > Unpack(l, s.state).time ==> s'.issued[|s.issued|].stamp == Stamp(now, 1))
  {
    i := ReadingWasTaken(l, steps, caller);
  }
}
