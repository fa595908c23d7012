/** The queue objects: a sliced, compacting buffer, and the two-lane queue built from two of them. */
module Queues {
  import opened EventQueue

  /** Go's zero Event, left in vacated cells. */
  const NOTHING := Event("", false, "", [], 0)

  function Max(a: nat, b: nat): nat {
    if a < b then b else a
  }

  /** What the runtime may choose as the capacity of a grown slice: at most double. */
  predicate Grown(capacity: nat, grown: nat) {
    capacity < grown <= Max(1, 2 * capacity)
  }

  predicate Bounded(capacity: nat, length: nat) {
    capacity <= Max(1024, 4 * length)
  }

  /** Array size, start and length of a buffer. */
  datatype Window = Window(size: nat, start: nat, length: nat)

  /** How a pop moves the window: it compacts a large array that is less than a quarter full. */
  function PopWindow(w: Window): Window
    requires w.length > 0 && w.start + w.length <= w.size
  {
    if w.length == 1 then w.(length := 0)
    else if w.size - w.start - 1 > 1024 && (w.length - 1) * 4 < w.size - w.start - 1 then
        Window(w.length - 1, 0, w.length - 1)
    else w.(start := w.start + 1, length := w.length - 1)
  }

  /** A slice `cells[start..start + length]` whose capacity runs to the end of the array. */
  class EventBuffer {
    var cells: array<Event>
    var start: nat
    var length: nat

    constructor ()
      ensures Valid() && Contents() == [] && Clean() && Bounded(Capacity(), length)
      ensures fresh(cells)
    {
      cells := new Event[0](_ => NOTHING);
      start, length := 0, 0;
    }

    ghost predicate Valid()
      reads this
    {
      start + length <= cells.Length
    }

    ghost function Contents(): seq<Event>
      requires Valid()
      reads this, cells
    {
      cells[start..start + length]
    }

    function Capacity(): nat
      requires Valid()
      reads this
    {
      cells.Length - start
    }

    function Shape(): Window
      reads this
    {
      Window(cells.Length, start, length)
    }

    /** No cell outside the live window keeps an event reachable. */
    ghost predicate Clean()
      requires Valid()
      reads this, cells
    {
      forall i :: 0 <= i < cells.Length && !(start <= i < start + length) ==> cells[i] == NOTHING
    }

    method Grow(grown: nat)
      requires Valid() && length == Capacity() && Grown(Capacity(), grown)
      modifies this
      ensures Valid() && fresh(cells) && length == old(length) && Capacity() == grown
      ensures Contents() == old(Contents()) && Clean()
    {
      var bigger := new Event[grown](_ => NOTHING);
      forall i | 0 <= i < length {
        bigger[i] := cells[start + i];
      }
      assert bigger[..length] == Contents();
      cells, start := bigger, 0;
    }

    /** `grown` is the capacity the runtime picks if the slice is full. */
    method Push(event: Event, grown: nat)
      requires Valid() && Grown(Capacity(), grown)
      modifies this, cells
      ensures Valid() && (cells == old(cells) || fresh(cells))
      ensures Contents() == old(Contents()) + [event]
      ensures old(Clean()) ==> Clean()
      ensures old(Bounded(Capacity(), length)) ==> Bounded(Capacity(), length)
    {
      if length == Capacity() {
        Grow(grown);
      }
      cells[start + length] := event;
      length := length + 1;
    }

    /** Copy the live events into an array of just their size. */
    method Compact()
      requires Valid()
      modifies this
      ensures Valid() && fresh(cells) && Shape() == Window(old(length), 0, old(length))
      ensures Contents() == old(Contents()) && Clean()
    {
      var compact := new Event[length](_ => NOTHING);
      forall i | 0 <= i < length {
        compact[i] := cells[start + i];
      }
      assert compact[..length] == Contents();
      cells, start := compact, 0;
    }

    /** Move the window past its emptied first cell. */
    method Advance()
      requires Valid() && length > 0 && cells[start] == NOTHING
      modifies this
      ensures Valid() && (cells == old(cells) || fresh(cells))
      ensures Shape() == PopWindow(old(Shape())) && Contents() == old(Contents()[1..])
      ensures old(Clean()) ==> Clean()
      ensures old(Bounded(Capacity(), length)) ==> Bounded(Capacity(), length)
    {
      ghost var rest := Contents()[1..];
      if length == 1 {
        length := 0;
      } else if Capacity() - 1 > 1024 && (length - 1) * 4 < Capacity() - 1 {
        start, length := start + 1, length - 1;
        assert Contents() == rest;
        Compact();
      } else {
        start, length := start + 1, length - 1;
        assert Contents() == rest;
      }
    }

    method Pop() returns (event: Event, ok: bool)
      requires Valid()
      modifies this, cells
      ensures Valid() && (cells == old(cells) || fresh(cells))
      ensures ok == (old(Contents()) != [])
      ensures !ok ==> event == NOTHING && Contents() == []
      ensures ok ==> Shape() == PopWindow(old(Shape()))
      ensures ok ==> event == old(Contents())[0] && Contents() == old(Contents())[1..]
      ensures old(Clean()) ==> Clean()
      ensures old(Bounded(Capacity(), length)) ==> Bounded(Capacity(), length)
    {
      if length == 0 {
        return NOTHING, false;
      }
      event, ok := cells[start], true;
      cells[start] := NOTHING;
      assert Contents()[1..] == old(Contents())[1..];
      Advance();
    }

    /** The stack's pop: it only shortens the slice, so the vacated cell keeps its event. */
    method PopLast() returns (event: Event)
      requires Valid() && length > 0
      modifies this
      ensures Valid() && cells == old(cells)
      ensures event == old(Contents())[old(length) - 1] && Contents() == old(Contents())[..old(length) - 1]
    {
      event := cells[start + length - 1];
      length := length - 1;
    }
  }

  class TwoLaneQueue {
    const lifo: EventBuffer
    const fifo: EventBuffer

    constructor ()
      ensures Valid() && Contents() == EMPTY
      ensures fifo.Clean() && Bounded(fifo.Capacity(), fifo.length)
      ensures fresh(Repr())
    {
      lifo := new EventBuffer();
      fifo := new EventBuffer();
    }

    ghost function Repr(): set<object>
      reads this, lifo, fifo
    {
      {lifo, fifo, lifo.cells, fifo.cells}
    }

    ghost predicate Valid()
      reads this, lifo, fifo
    {
      lifo != fifo && lifo.cells != fifo.cells && lifo.Valid() && fifo.Valid()
    }

    ghost function Contents(): Pending
      requires Valid()
      reads this, lifo, fifo, Repr()
    {
      Pending(lifo.Contents(), fifo.Contents())
    }

    /** The regular lane keeps no event alive in a vacated cell, and little more room than it needs. */
    ghost predicate Tidy()
      requires Valid()
      reads this, lifo, fifo, Repr()
    {
      fifo.Clean() && Bounded(fifo.Capacity(), fifo.length)
    }

    method Len() returns (n: nat)
      requires Valid()
      ensures n == Size(Contents())
    {
      n := lifo.length + fifo.length;
    }

    method Push(event: Event, grown: nat)
      requires Valid() && Grown((if event.completion then lifo else fifo).Capacity(), grown)
      modifies Repr()
      ensures Valid() && fresh(Repr() - old(Repr()))
      ensures Contents() == EventQueue.Push(old(Contents()), event)
      ensures old(Tidy()) ==> Tidy()
    {
      if event.completion {
        lifo.Push(event, grown);
      } else {
        fifo.Push(event, grown);
      }
    }

    method Pop() returns (event: Event, ok: bool)
      requires Valid()
      modifies Repr()
      ensures Valid() && fresh(Repr() - old(Repr()))
      ensures ok == !IsEmpty(old(Contents()))
      ensures ok ==> event == Head(old(Contents())) && Contents() == Rest(old(Contents()))
      ensures !ok ==> Contents() == old(Contents())
      ensures old(Tidy()) ==> Tidy()
    {
      if lifo.length > 0 {
        event := lifo.PopLast();
        return event, true;
      }
      event, ok := fifo.Pop();
    }
  }

  // ----- the order of service -----

  datatype Op = Pushed(event: Event) | Popped

  /** The queue after a history of pushes and pops; popping an empty queue does nothing. */
  function Replay(ops: seq<Op>): Pending {
    if ops == [] then EMPTY
    else
      var before, op := Replay(ops[..|ops| - 1]), ops[|ops| - 1];
      if op.Pushed? then EventQueue.Push(before, op.event)
      else if IsEmpty(before) then before
      else Rest(before)
  }

  /** Push number `i` is the newest outstanding completion, or without one the oldest outstanding push. */
  ghost predicate IsNext(ops: seq<Op>, outstanding: set<nat>, i: nat)
    requires forall j :: j in outstanding ==> j < |ops| && ops[j].Pushed?
  {
    && i in outstanding
    && if ops[i].event.completion then forall j :: j in outstanding && ops[j].event.completion ==> j <= i
       else forall j :: j in outstanding ==> !ops[j].event.completion && i <= j
  }

  /** Which pushes a history leaves unserved, serving by arrival and lane alone. */
  ghost predicate Leaves(ops: seq<Op>, outstanding: set<nat>)
    decreases |ops|, 0
  {
    && (forall j :: j in outstanding ==> j < |ops| && ops[j].Pushed?)
    && if ops == [] then outstanding == {}
       else
         var n := |ops| - 1;
         if ops[n].Pushed? then n in outstanding && Leaves(ops[..n], outstanding - {n})
         else
           || (outstanding == {} && Leaves(ops[..n], {}))
           || exists i: nat :: LeavesAfterServing(ops[..n], outstanding, i)
  }

  ghost predicate LeavesAfterServing(ops: seq<Op>, outstanding: set<nat>, i: nat)
    decreases |ops|, 1
  {
    i !in outstanding && Leaves(ops, outstanding + {i}) && IsNext(ops, outstanding + {i}, i)
  }

  predicate Increasing(s: seq<nat>) {
    forall i, j :: 0 <= i < j < |s| ==> s[i] < s[j]
  }

  predicate Places(ops: seq<Op>, places: seq<nat>) {
    forall k :: 0 <= k < |places| ==> places[k] < |ops| && ops[places[k]].Pushed?
  }

  function EventsAt(ops: seq<Op>, places: seq<nat>): seq<Event>
    requires Places(ops, places)
  {
    seq(|places|, k requires 0 <= k < |places| => ops[places[k]].event)
  }

  /** The two lanes hold the outstanding pushes in the order they arrived. */
  ghost predicate Enumerates(ops: seq<Op>, outstanding: set<nat>, cs: seq<nat>, rs: seq<nat>) {
    && (forall j :: j in outstanding ==> j < |ops| && ops[j].Pushed?)
    && Places(ops, cs) && Places(ops, rs)
    && (forall j :: j in cs <==> j in outstanding && ops[j].event.completion)
    && (forall j :: j in rs <==> j in outstanding && !ops[j].event.completion)
    && Increasing(cs) && Increasing(rs)
    && Replay(ops) == Pending(EventsAt(ops, cs), EventsAt(ops, rs))
  }

  lemma NextIsHead(ops: seq<Op>, outstanding: set<nat>, i: nat, cs: seq<nat>, rs: seq<nat>)
    requires Enumerates(ops, outstanding, cs, rs) && IsNext(ops, outstanding, i)
    ensures !IsEmpty(Replay(ops)) && Head(Replay(ops)) == ops[i].event
    ensures if ops[i].event.completion then cs != [] && cs[|cs| - 1] == i else cs == [] && rs != [] && rs[0] == i
  {
    if ops[i].event.completion {
      assert i in cs && cs[|cs| - 1] in cs;
    } else {
      assert i in rs && rs[0] in rs;
    }
  }

  lemma PushEnumerates(ops: seq<Op>, op: Op, before: set<nat>, cs: seq<nat>, rs: seq<nat>)
    requires Enumerates(ops, before, cs, rs) && op.Pushed?
    ensures if op.event.completion then Enumerates(ops + [op], before + {|ops|}, cs + [|ops|], rs)
            else Enumerates(ops + [op], before + {|ops|}, cs, rs + [|ops|])
  {
    var n, ops' := |ops|, ops + [op];
    assert ops'[..n] == ops;
    assert EventsAt(ops', cs) == EventsAt(ops, cs) && EventsAt(ops', rs) == EventsAt(ops, rs);
    if op.event.completion {
      assert EventsAt(ops', cs + [n]) == EventsAt(ops', cs) + [op.event];
    } else {
      assert EventsAt(ops', rs + [n]) == EventsAt(ops', rs) + [op.event];
    }
  }

  lemma PopCompletion(ops: seq<Op>, outstanding: set<nat>, i: nat, cs: seq<nat>, rs: seq<nat>)
    requires Enumerates(ops, outstanding + {i}, cs, rs) && i !in outstanding && cs != [] && cs[|cs| - 1] == i
    ensures Enumerates(ops + [Popped], outstanding, cs[..|cs| - 1], rs)
  {
    var ops', cs' := ops + [Popped], cs[..|cs| - 1];
    assert ops'[..|ops|] == ops && cs == cs' + [i];
    OthersStay(cs, [i], cs', i);
    assert EventsAt(ops', cs') == EventsAt(ops, cs)[..|cs| - 1] && EventsAt(ops', rs) == EventsAt(ops, rs);
    hide EventsAt, Replay;
  }

  lemma OthersStay(s: seq<nat>, one: seq<nat>, rest: seq<nat>, i: nat)
    requires one == [i] && (s == rest + one || s == one + rest) && Increasing(s)
    ensures forall j :: j in rest <==> j in s && j != i
    ensures Increasing(rest)
  {
    if s == one + rest {
      assert s[0] == i && forall k :: 0 <= k < |rest| ==> rest[k] == s[k + 1] > i;
    } else {
      assert s[|rest|] == i && forall k :: 0 <= k < |rest| ==> rest[k] == s[k] < i;
    }
    assert i !in rest;
  }

  lemma PopRegular(ops: seq<Op>, outstanding: set<nat>, i: nat, rs: seq<nat>)
    requires Enumerates(ops, outstanding + {i}, [], rs) && i !in outstanding && rs != [] && rs[0] == i
    ensures Enumerates(ops + [Popped], outstanding, [], rs[1..])
  {
    var ops', rs' := ops + [Popped], rs[1..];
    assert ops'[..|ops|] == ops && rs == [i] + rs';
    OthersStay(rs, [i], rs', i);
    assert EventsAt(ops', rs') == EventsAt(ops, rs)[1..] && EventsAt(ops', []) == EventsAt(ops, []);
    hide EventsAt, Replay;
  }

  lemma PopEnumerates(ops: seq<Op>, outstanding: set<nat>, i: nat, cs: seq<nat>, rs: seq<nat>)
    requires Enumerates(ops, outstanding + {i}, cs, rs) && i !in outstanding && IsNext(ops, outstanding + {i}, i)
    ensures if ops[i].event.completion then cs != [] && Enumerates(ops + [Popped], outstanding, cs[..|cs| - 1], rs)
            else rs != [] && Enumerates(ops + [Popped], outstanding, cs, rs[1..])
  {
    NextIsHead(ops, outstanding + {i}, i, cs, rs);
    hide Enumerates;
    if ops[i].event.completion {
      PopCompletion(ops, outstanding, i, cs, rs);
    } else {
      PopRegular(ops, outstanding, i, rs);
    }
  }

  lemma {:induction false} LanesKeepArrivalOrder(ops: seq<Op>, outstanding: set<nat>)
    returns (cs: seq<nat>, rs: seq<nat>)
    requires Leaves(ops, outstanding)
    ensures Enumerates(ops, outstanding, cs, rs)
    decreases |ops|
  {
    hide Enumerates, IsNext;
    if ops == [] {
      NothingEnumerates();
      return [], [];
    }
    var n := |ops| - 1;
    var before := ops[..n];
    assert ops == before + [ops[n]];
    if ops[n].Pushed? {
      cs, rs := LanesKeepArrivalOrder(before, outstanding - {n});
      PushEnumerates(before, ops[n], outstanding - {n}, cs, rs);
      assert outstanding - {n} + {n} == outstanding;
      if ops[n].event.completion {
        cs := cs + [n];
      } else {
        rs := rs + [n];
      }
    } else if outstanding == {} && Leaves(before, {}) {
      cs, rs := LanesKeepArrivalOrder(before, {});
      EmptyPopEnumerates(before, cs, rs);
    } else {
      var i: nat :| LeavesAfterServing(before, outstanding, i);
      cs, rs := LanesKeepArrivalOrder(before, outstanding + {i});
      PopEnumerates(before, outstanding, i, cs, rs);
      if before[i].event.completion {
        cs := cs[..|cs| - 1];
      } else {
        rs := rs[1..];
      }
    }
  }

  lemma NothingEnumerates()
    ensures Enumerates([], {}, [], [])
  {
  }

  lemma HasMember(s: seq<nat>)
    requires s != []
    ensures exists j :: j in s
  {
    assert s[0] in s;
  }

  lemma EmptyPopEnumerates(ops: seq<Op>, cs: seq<nat>, rs: seq<nat>)
    requires Enumerates(ops, {}, cs, rs)
    ensures Enumerates(ops + [Popped], {}, cs, rs)
  {
    assert (ops + [Popped])[..|ops|] == ops;
    if cs != [] {
      HasMember(cs);
    }
    if rs != [] {
      HasMember(rs);
    }
  }

  /** Over any history of pushes and pops: the queue is empty exactly when nothing is outstanding,
      and otherwise the next pop returns the newest outstanding completion event if there is
      one, else the oldest outstanding regular event. */
  lemma PopServesByArrival(ops: seq<Op>, outstanding: set<nat>)
    requires Leaves(ops, outstanding)
    ensures outstanding == {} <==> IsEmpty(Replay(ops))
    ensures forall i: nat :: IsNext(ops, outstanding, i) ==> !IsEmpty(Replay(ops)) && Head(Replay(ops)) == ops[i].event
    ensures outstanding != {} ==> exists i: nat :: IsNext(ops, outstanding, i)
  {
    var cs, rs := LanesKeepArrivalOrder(ops, outstanding);
    forall i: nat | IsNext(ops, outstanding, i)
      ensures !IsEmpty(Replay(ops)) && Head(Replay(ops)) == ops[i].event
    {
      NextIsHead(ops, outstanding, i, cs, rs);
    }
    if j :| j in outstanding {
      assert j in cs || j in rs;
      if cs != [] {
        assert IsNext(ops, outstanding, cs[|cs| - 1]);
      } else {
        assert IsNext(ops, outstanding, rs[0]);
      }
    }
  }

  /** Every history leaves some set of pushes, so the order of service is never undefined. */
  lemma {:induction false} EveryHistoryLeaves(ops: seq<Op>) returns (outstanding: set<nat>)
    ensures Leaves(ops, outstanding)
    decreases |ops|
  {
    if ops == [] {
      return {};
    }
    var n := |ops| - 1;
    var before := EveryHistoryLeaves(ops[..n]);
    if ops[n].Pushed? {
      outstanding := before + {n};
      assert outstanding - {n} == before;
    } else if before == {} {
      outstanding := {};
    } else {
      PopServesByArrival(ops[..n], before);
      var i: nat :| IsNext(ops[..n], before, i);
      outstanding := before - {i};
      assert outstanding + {i} == before;
      assert LeavesAfterServing(ops[..n], outstanding, i);
    }
  }

  // ----- what the space bound does not say -----

  function PopTimes(w: Window, k: nat): Window
    requires k < w.length && w.start + w.length <= w.size
    decreases k
  {
    if k == 0 then w else PopTimes(PopWindow(w), k - 1)
  }

  /** The capacity is bounded, the array behind it is not: a full buffer of any size, popped down
      to one event, still holds its whole array. */
  lemma {:induction false} DrainedBufferKeepsItsArray(w: Window, k: nat)
    requires k < w.length && w.start + w.length == w.size
    ensures PopTimes(w, k) == Window(w.size, w.start + k, w.length - k)
    decreases k
  {
    if k > 0 {
      DrainedBufferKeepsItsArray(PopWindow(w), k - 1);
    }
  }
}
