/** The generator of monotonically unique identifiers: its field layout, the compare-and-swap
    attempt, and what holds when any number of callers interleave their attempts. */
module Muid {
  import opened Bits
  import opened Options

  datatype Config = Config(machineID: nat, timestampBitLen: int, machineIDBitLen: int, epoch: int)

  const DEFAULT_TIMESTAMP_BIT_LEN := 40
  const DEFAULT_MACHINE_ID_BIT_LEN := 14
  const DEFAULT_EPOCH := 1700000000000

  /** Widths and fixed fields, from the most significant: timestamp, machine, shard, counter. */
  datatype Layout = Layout(timestampBits: nat, machineBits: nat, shardBits: nat, counterBits: nat, machine: nat,
     shard: nat)

  predicate Valid(l: Layout) {
    && l.timestampBits + l.machineBits + l.shardBits + l.counterBits == 64
    && l.machine < Pow2(l.machineBits) && l.shard < Pow2(l.shardBits)
  }

  function Mask(l: Layout): nat {
    Pow2(l.counterBits) - 1
  }

  /** What the generator's state word and an attempt's local variables hold. */
  datatype Stamp = Stamp(time: nat, counter: nat)

  function Unpack(l: Layout, state: nat): Stamp {
    Stamp(Shr(state, l.counterBits), And(state, Mask(l)))
  }

  /** The next stamp after the one in the state word, for a clock reading. */
  function Advance(l: Layout, last: Stamp, now: nat): Stamp {
    if now > last.time then Stamp(now, 1)
    else if last.counter >= Mask(l) then Stamp(last.time + 1, 1)
    else Stamp(last.time, last.counter + 1)
  }

  function PackState(l: Layout, stamp: Stamp): nat {
    Or(Shl(stamp.time, l.counterBits), stamp.counter)
  }

  function PackId(l: Layout, stamp: Stamp): nat {
    Or(Or(Or(Shl(stamp.time, l.machineBits + l.shardBits + l.counterBits),
             Shl(l.machine, l.shardBits + l.counterBits)),
          Shl(l.shard, l.counterBits)),
       stamp.counter)
  }

  function WidthOr(width: int, default: nat): nat {
    if width <= 0 then default else width
  }

  class Generator {
    const timestampBitLen: nat
    const machineIDBitLen: nat
    const shardBitLen: nat
    const counterBitLen: nat
    const timestampBitShift: nat
    const machineIDShift: nat
    const shardIndexShift: nat
    const counterBitMask: nat
    const epoch: int
    const machineID: nat
    const shardIndex: nat
    var state: nat

    /** A shift by a negative count panics, so the widths must leave room for one another. */
    constructor NewGenerator(config: Config, shardIndex: nat, shardBitLen: nat, defaultMachineID: nat)
      requires WidthOr(config.timestampBitLen, DEFAULT_TIMESTAMP_BIT_LEN)
               + WidthOr(config.machineIDBitLen, DEFAULT_MACHINE_ID_BIT_LEN) + shardBitLen <= 64
      ensures Valid(Fields()) && Consistent() && state == 1
      ensures Fields().timestampBits == if config.timestampBitLen > 0 then config.timestampBitLen else 40
      ensures Fields().machineBits == if config.machineIDBitLen > 0 then config.machineIDBitLen else 14
      ensures Fields().shardBits == shardBitLen
      ensures Fields().machine
           == (if config.machineID == 0 then defaultMachineID else config.machineID) % Pow2(Fields().machineBits)
      ensures Fields().shard == shardIndex % Pow2(shardBitLen)
      ensures epoch == if config.epoch <= 0 then DEFAULT_EPOCH else config.epoch
    {
      hide And, Pow2;
      var machineBits: int := config.machineIDBitLen;
      if machineBits <= 0 {
        machineBits := DEFAULT_MACHINE_ID_BIT_LEN;
      }
      epoch := config.epoch;
      if config.epoch <= 0 {
        epoch := DEFAULT_EPOCH;
      }
      var timestampBits: int := config.timestampBitLen;
      if timestampBits <= 0 {
        timestampBits := DEFAULT_TIMESTAMP_BIT_LEN;
      }
      var counterBits := 64 - timestampBits - machineBits - shardBitLen;
      this.timestampBitLen := timestampBits;
      this.machineIDBitLen := machineBits;
      this.shardBitLen := shardBitLen;
      this.counterBitLen := counterBits;
      this.timestampBitShift := machineBits + shardBitLen + counterBits;
      this.machineIDShift := shardBitLen + counterBits;
      this.shardIndexShift := counterBits;
      this.counterBitMask := Pow2(counterBits) - 1;
      var machine := config.machineID;
      if machine <= 0 {
        machine := defaultMachineID;
      }
      AndWithMask(machine, machineBits);
      this.machineID := And(machine, Pow2(machineBits) - 1);
      AndWithMask(shardIndex, shardBitLen);
      this.shardIndex := And(shardIndex, Pow2(shardBitLen) - 1);
      state := 1;
    }

    function Fields(): Layout {
      Layout(timestampBitLen, machineIDBitLen, shardBitLen, counterBitLen, machineID, shardIndex)
    }

    /** The precomputed shifts and mask are those of the widths. */
    predicate Consistent() {
      && counterBitMask == Mask(Fields())
      && shardIndexShift == counterBitLen
      && machineIDShift == shardBitLen + counterBitLen
      && timestampBitShift == machineIDBitLen + shardBitLen + counterBitLen
    }

    /** One round of the retry loop, from the clock reading and the loaded state to the swap. */
    method TryID(reading: nat, previousState: nat) returns (id: Option<nat>)
      requires Consistent()
      modifies this`state
      ensures
        var stamp := Advance(Fields(), Unpack(Fields(), previousState), reading);
        if old(state) == previousState then state == PackState(Fields(), stamp) && id == Some(PackId(Fields(), stamp))
        else state == old(state) && id == None
    {
      hide And, Or, Shl, Shr, Pow2;
      var now := reading;
      var lastTimestamp := Shr(previousState, counterBitLen);
      var counter := And(previousState, counterBitMask);
      if now < lastTimestamp {
        now := lastTimestamp;
      }
      if now == lastTimestamp {
        if counter >= counterBitMask {
          now := now + 1;
          counter := 1;
        } else {
          counter := counter + 1;
        }
      } else {
        counter := 1;
      }
      var newState := Or(Shl(now, counterBitLen), counter);
      if state == previousState {
        state := newState;
        id := Some(Or(Or(Or(Shl(now, timestampBitShift), Shl(machineID, machineIDShift)),
                         Shl(shardIndex, shardIndexShift)), counter));
      } else {
        id := None;
      }
    }
  }

  // ----- the packed fields -----

  predicate InRange(l: Layout, stamp: Stamp) {
    1 <= stamp.counter <= Mask(l)
  }

  lemma StateUnpacks(l: Layout, stamp: Stamp)
    requires Valid(l) && InRange(l, stamp)
    ensures Unpack(l, PackState(l, stamp)) == Stamp(stamp.time % Pow2(64 - l.counterBits), stamp.counter)
  {
    ShiftKeepsLowBits(stamp.time, l.counterBits, 64 - l.counterBits);
    var hi := stamp.time % Pow2(64 - l.counterBits);
    OrIntoLowBits(hi, stamp.counter, l.counterBits);
    Unpacks(hi, stamp.counter, Pow2(l.counterBits));
    AndWithMask(PackState(l, stamp), l.counterBits);
  }

  /** The fields of an identifier, stacked: each next one below the ones before. */
  function Above(l: Layout, time: nat): nat {
    (time * Pow2(l.machineBits) + l.machine) * Pow2(l.shardBits) + l.shard
  }

  /** Before the counter is ored in. */
  lemma FieldsAreStacked(l: Layout, time: nat)
    requires Valid(l)
    ensures Or(Or(Shl(time, l.machineBits + l.shardBits + l.counterBits), Shl(l.machine, l.shardBits + l.counterBits)),
               Shl(l.shard, l.counterBits))
            == Above(l, time % Pow2(l.timestampBits)) * Pow2(l.counterBits)
  {
    hide Pow2, Or, Shl;
    var t, m, s, c := time % Pow2(l.timestampBits), l.machineBits, l.shardBits, l.counterBits;
    ShiftKeepsLowBits(time, m + s + c, l.timestampBits);
    StackOnto(t, l.machine, m, s + c);
    StackOnto(t * Pow2(m) + l.machine, l.shard, s, c);
    NoOverflow(l.machine, m, s + c);
    NoOverflow(l.shard, s, c);
  }

  lemma IdIsStacked(l: Layout, stamp: Stamp)
    requires Valid(l) && InRange(l, stamp)
    ensures PackId(l, stamp) == Above(l, stamp.time % Pow2(l.timestampBits)) * Pow2(l.counterBits) + stamp.counter
  {
    hide Pow2, Or, Shl, Above;
    FieldsAreStacked(l, stamp.time);
    OrIntoLowBits(Above(l, stamp.time % Pow2(l.timestampBits)), stamp.counter, l.counterBits);
  }

  /** Oring a field of `width` bits, shifted by `low`, under what already stands above it. */
  lemma StackOnto(hi: nat, field: nat, width: nat, low: nat)
    requires field < Pow2(width)
    ensures Or(hi * Pow2(width + low), field * Pow2(low)) == (hi * Pow2(width) + field) * Pow2(low)
  {
    hide Pow2, Or;
    Pow2Adds(width, low);
    PackedFits(field, 0, Pow2(low), Pow2(width));
    OrIntoLowBits(hi, field * Pow2(low), width + low);
    MulAssociates(hi, Pow2(width), Pow2(low));
    Distribute(hi * Pow2(width), field, Pow2(low));
  }

  /** Every field can be read back, the timestamp modulo its width. */
  lemma IdRoundTrip(l: Layout, stamp: Stamp)
    requires Valid(l) && InRange(l, stamp)
    ensures
      var id := PackId(l, stamp);
      && And(id, Mask(l)) == stamp.counter
      && Shr(id, l.counterBits) % Pow2(l.shardBits) == l.shard
      && Shr(Shr(id, l.counterBits), l.shardBits) % Pow2(l.machineBits) == l.machine
      && Shr(Shr(Shr(id, l.counterBits), l.shardBits), l.machineBits) == stamp.time % Pow2(l.timestampBits)
  {
    hide Pow2, And, PackId;
    var t := stamp.time % Pow2(l.timestampBits);
    IdIsStacked(l, stamp);
    AndWithMask(PackId(l, stamp), l.counterBits);
    Unpacks(Above(l, t), stamp.counter, Pow2(l.counterBits));
    Unpacks(t * Pow2(l.machineBits) + l.machine, l.shard, Pow2(l.shardBits));
    Unpacks(t, l.machine, Pow2(l.machineBits));
  }

  predicate Later(a: Stamp, b: Stamp) {
    a.time < b.time || (a.time == b.time && a.counter < b.counter)
  }

  /** While the timestamp fits its field, a later stamp makes a greater identifier. */
  lemma LaterIsGreater(l: Layout, a: Stamp, b: Stamp)
    requires Valid(l) && InRange(l, a) && InRange(l, b) && Later(a, b) && b.time < Pow2(l.timestampBits)
    ensures PackId(l, a) < PackId(l, b)
  {
    hide Pow2, PackId;
    IdIsStacked(l, a);
    IdIsStacked(l, b);
    SmallRemainder(a.time, Pow2(l.timestampBits));
    SmallRemainder(b.time, Pow2(l.timestampBits));
    if a.time < b.time {
      PackedOrder(a.time, l.machine, b.time, l.machine, Pow2(l.machineBits));
      PackedOrder(a.time * Pow2(l.machineBits) + l.machine, l.shard, b.time * Pow2(l.machineBits) + l.machine,
         l.shard, Pow2(l.shardBits));
      PackedOrder(Above(l, a.time), a.counter, Above(l, b.time), b.counter, Pow2(l.counterBits));
    }
  }

  /** Generators that differ only in their shard never make the same identifier, whatever the
      clocks read and even when timestamps overflow, given at least one counter bit. */
  lemma ShardsNeverCollide(l1: Layout, l2: Layout, stamp1: Stamp, stamp2: Stamp)
    requires Valid(l1) && Valid(l2) && InRange(l1, stamp1) && InRange(l2, stamp2)
    requires l2 == l1.(shard := l2.shard) && l1.shard != l2.shard
    ensures PackId(l1, stamp1) != PackId(l2, stamp2)
  {
    IdRoundTrip(l1, stamp1);
    IdRoundTrip(l2, stamp2);
  }

  // ----- without a counter bit -----

  /** The next odd number, if it is not odd already. */
  function Odd(x: nat): nat {
    if x % 2 == 0 then x + 1 else x
  }

  lemma OrOne(x: nat)
    ensures Or(x, 1) == Odd(x)
  {
    hide Or;
    OrUnfolds(x, 1);
    OrZero(x / 2);
  }

  /** The counter is then always 1, and it is ored over the lowest bit of what stands above it. */
  lemma IdWithoutCounter(l: Layout, time: nat)
    requires Valid(l) && l.counterBits == 0
    ensures PackId(l, Stamp(time, 1)) == Odd(Above(l, time % Pow2(l.timestampBits)))
  {
    hide Or, Shl, Above, Odd;
    FieldsAreStacked(l, time);
    OrOne(Above(l, time % Pow2(l.timestampBits)));
  }

  lemma StateWithoutCounter(l: Layout, time: nat)
    requires Valid(l) && l.counterBits == 0 && time < Pow2(l.timestampBits)
    ensures PackState(l, Stamp(time, 1)) == Odd(time)
    ensures forall state: nat :: Unpack(l, state) == Stamp(state, 0)
  {
    PowZero();
    hide Or, Shl, Odd, Pow2;
    Pow2Grows(l.timestampBits, 64);
    SmallRemainder(time, Pow2(64));
    ShiftKeepsLowBits(time, 0, 64);
    OrOne(time);
    forall state: nat
      ensures Unpack(l, state) == Stamp(state, 0)
    {
      AndWithMask(state, 0);
    }
  }

  /** Even then a time after the last state word makes a greater identifier. */
  lemma LaterTimeIsGreater(l: Layout, a: nat, b: nat)
    requires Valid(l) && l.counterBits == 0 && Odd(a) < b < Pow2(l.timestampBits)
    ensures PackId(l, Stamp(a, 1)) < PackId(l, Stamp(b, 1))
  {
    hide Pow2, PackId;
    IdWithoutCounter(l, a);
    IdWithoutCounter(l, b);
    SmallRemainder(a, Pow2(l.timestampBits));
    SmallRemainder(b, Pow2(l.timestampBits));
    AboveIsPacked(l, a);
    AboveIsPacked(l, b);
    hide Above, Odd;
    OddOrder(a, b, l.machine * Pow2(l.shardBits) + l.shard, Pow2(l.machineBits) * Pow2(l.shardBits));
  }

  lemma AboveIsPacked(l: Layout, time: nat)
    requires Valid(l)
    ensures var p, low := Pow2(l.machineBits) * Pow2(l.shardBits), l.machine * Pow2(l.shardBits) + l.shard;
            Above(l, time) == time * p + low && low < p && (p == 1 || p % 2 == 0)
  {
    hide Pow2;
    var m, s := Pow2(l.machineBits), Pow2(l.shardBits);
    EvenOrOne(l.machineBits);
    EvenOrOne(l.shardBits);
    Distribute(time * m, l.machine, s);
    MulAssociates(time, m, s);
    PackedFits(l.machine, l.shard, s, m);
    if m % 2 == 0 || s % 2 == 0 {
      EvenProduct(m, s);
    }
  }

  lemma OddOrder(a: nat, b: nat, low: nat, p: nat)
    requires Odd(a) < b && low < p && (p == 1 || p % 2 == 0)
    ensures Odd(a * p + low) < Odd(b * p + low)
  {
    if p > 1 {
      MulGrows(a + 1, b, p);
      Distribute(a, 1, p);
      EvenProduct(a, p);
      assert a * p + low + 2 <= b * p + low;
    }
  }

  lemma EvenProduct(a: nat, b: nat)
    requires a % 2 == 0 || b % 2 == 0
    ensures (a * b) % 2 == 0
  {
    if a % 2 == 0 {
      EvenTimes(a, b);
    } else {
      EvenTimes(b, a);
      MulCommutes(a, b);
    }
  }

  lemma EvenTimes(a: nat, b: nat)
    requires a % 2 == 0
    ensures (a * b) % 2 == 0
  {
    var h := a / 2;
    assert a == 2 * h;
    MulAssociates(2, h, b);
    TwiceIsEven(h * b);
  }

  lemma TwiceIsEven(x: nat)
    ensures (2 * x) % 2 == 0
  {
  }

  lemma MulCommutes(a: nat, b: nat)
    ensures a * b == b * a
  {
  }

  lemma EvenOrOne(k: nat)
    ensures Pow2(k) == 1 || Pow2(k) % 2 == 0
    ensures k > 0 ==> Pow2(k) == 2 * Pow2(k - 1)
    ensures k == 0 ==> Pow2(k) == 1
  {
  }

  lemma PowZero()
    ensures Pow2(0) == 1
  {
  }

  // ----- when shards collide -----

  /** What every stamp an attempt comes to is like. */
  predicate Issuable(l: Layout, stamp: Stamp) {
    1 <= stamp.counter && (stamp.counter == 1 || stamp.counter <= Mask(l))
  }

  lemma AdvanceIsIssuable(l: Layout, last: Stamp, now: nat)
    ensures Issuable(l, Advance(l, last, now))
  {
  }

  lemma OddHalves(x: nat, y: nat)
    ensures Odd(x) == Odd(y) <==> x / 2 == y / 2
  {
  }

  lemma HalfOfStack(hi: nat, shard: nat, q: nat)
    requires shard < 2 * q
    ensures (hi * (2 * q) + shard) / 2 == hi * q + shard / 2 && (hi * (2 * q) + shard) / 2 % q == shard / 2
  {
    MulAssociates(hi, 2, q);
    assert hi * 2 == 2 * hi;
    MulAssociates(2, hi, q);
    Unpacks(hi, shard / 2, q);
  }

  /** From some last stamps and clock readings the two layouts make the same identifier. */
  predicate Collide(l1: Layout, l2: Layout, last1: Stamp, now1: nat, last2: Stamp, now2: nat) {
    PackId(l1, Advance(l1, last1, now1)) == PackId(l2, Advance(l2, last2, now2))
  }

  /** Two shards of one layout can make the same identifier exactly when the widths leave no
      counter bit and the shards differ in their lowest bit only. */
  lemma ShardsCollideExactly(l1: Layout, l2: Layout)
    requires Valid(l1) && Valid(l2) && l2 == l1.(shard := l2.shard) && l1.shard != l2.shard
    ensures (exists last1, now1, last2, now2 :: Collide(l1, l2, last1, now1, last2, now2))
            <==> l1.counterBits == 0 && l1.shard / 2 == l2.shard / 2
  {
    hide Pow2, PackId;
    EvenOrOne(l1.counterBits);
    EvenOrOne(l1.shardBits);
    if l1.counterBits == 0 && l1.shard / 2 == l2.shard / 2 {
      SameHalfCollides(l1, l2, 1, 1);
      assert Collide(l1, l2, Stamp(0, 1), 1, Stamp(0, 1), 1);
    }
    if last1, now1, last2, now2 :| Collide(l1, l2, last1, now1, last2, now2) {
      var s1, s2 := Advance(l1, last1, now1), Advance(l2, last2, now2);
      AdvanceIsIssuable(l1, last1, now1);
      AdvanceIsIssuable(l2, last2, now2);
      if l1.counterBits > 0 {
        ShardsNeverCollide(l1, l2, s1, s2);
      } else {
        SameHalfCollides(l1, l2, s1.time, s2.time);
      }
    }
  }

  lemma SameHalfCollides(l1: Layout, l2: Layout, time1: nat, time2: nat)
    requires Valid(l1) && Valid(l2) && l2 == l1.(shard := l2.shard) && l1.counterBits == 0 && l1.shardBits > 0
    ensures PackId(l1, Stamp(time1, 1)) == PackId(l2, Stamp(time2, 1)) ==> l1.shard / 2 == l2.shard / 2
    ensures time1 == time2 && l1.shard / 2 == l2.shard / 2 ==>
        PackId(l1, Stamp(time1, 1)) == PackId(l2, Stamp(time2, 1))
  {
    hide Pow2, PackId, Odd, Above;
    IdWithoutCounter(l1, time1);
    IdWithoutCounter(l2, time2);
    AboveDecides(l1, l2, time1 % Pow2(l1.timestampBits), time2 % Pow2(l1.timestampBits));
  }

  lemma AboveDecides(l1: Layout, l2: Layout, time1: nat, time2: nat)
    requires Valid(l1) && Valid(l2) && l2 == l1.(shard := l2.shard) && l1.shardBits > 0
    ensures Odd(Above(l1, time1)) == Odd(Above(l2, time2)) ==> l1.shard / 2 == l2.shard / 2
    ensures time1 == time2 && l1.shard / 2 == l2.shard / 2 ==> Odd(Above(l1, time1)) == Odd(Above(l2, time2))
  {
    hide Pow2, Odd;
    EvenOrOne(l1.shardBits);
    var hi1, hi2 := time1 * Pow2(l1.machineBits) + l1.machine, time2 * Pow2(l1.machineBits) + l1.machine;
    HalvesDecide(hi1, hi2, l1.shard, l2.shard, Pow2(l1.shardBits), Pow2(l1.shardBits - 1));
  }

  lemma HalvesDecide(hi1: nat, hi2: nat, shard1: nat, shard2: nat, width: nat, half: nat)
    requires width == 2 * half && shard1 < width && shard2 < width
    ensures Odd(hi1 * width + shard1) == Odd(hi2 * width + shard2) ==> shard1 / 2 == shard2 / 2
    ensures hi1 == hi2 && shard1 / 2 == shard2 / 2 ==> Odd(hi1 * width + shard1) == Odd(hi2 * width + shard2)
  {
    hide Odd;
    HalfOfStack(hi1, shard1, half);
    HalfOfStack(hi2, shard2, half);
    OddHalves(hi1 * width + shard1, hi2 * width + shard2);
  }
}
