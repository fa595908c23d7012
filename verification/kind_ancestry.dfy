/** Kinds built by any sequence of declarations, and what testing them decides. */
module KindAncestry {
  import opened Bits
  import opened Kinds

  /** `decls[i]` lists the bases of the kind made by call number `i`; a byte tells 256 calls apart. */
  predicate Declared(decls: seq<seq<nat>>) {
    && |decls| <= 256
    && forall i, j :: 0 <= i < |decls| && 0 <= j < |decls[i]| ==> decls[i][j] < i
  }

  function Word(decls: seq<seq<nat>>, i: nat): nat
    requires Declared(decls) && i < |decls|
    decreases i, 1
  {
    Made(i, BaseWords(decls, i))
  }

  function BaseWords(decls: seq<seq<nat>>, i: nat): (r: seq<nat>)
    requires Declared(decls) && i < |decls|
    ensures |r| == |decls[i]|
    decreases i, 0
  {
    seq(|decls[i]|, j requires 0 <= j < |decls[i]| => Word(decls, decls[i][j]))
  }

  /** `b` is a base of `i`, or of a base of `i`, and so on. */
  ghost predicate Inherits(decls: seq<seq<nat>>, i: nat, b: nat)
    requires Declared(decls) && i < |decls|
    decreases i
  {
    exists j :: 0 <= j < |decls[i]| && (decls[i][j] == b || Inherits(decls, decls[i][j], b))
  }

  /** The ancestors with a non-zero id: only the first call makes the id zero. */
  ghost function Ancestors(decls: seq<seq<nat>>, i: nat): set<nat>
    requires Declared(decls) && i < |decls|
  {
    set b: nat | 1 <= b < i && Inherits(decls, i, b)
  }

  ghost predicate ShallowBelow(decls: seq<seq<nat>>, n: nat)
    requires Declared(decls) && n <= |decls|
  {
    forall i :: 0 <= i < n ==> |Ancestors(decls, i)| <= 7
  }

  lemma {:induction false} InheritsFromEarlier(decls: seq<seq<nat>>, i: nat, b: nat)
    requires Declared(decls) && i < |decls| && Inherits(decls, i, b)
    ensures b < i
    decreases i
  {
    var j :| 0 <= j < |decls[i]| && (decls[i][j] == b || Inherits(decls, decls[i][j], b));
    if decls[i][j] != b {
      InheritsFromEarlier(decls, decls[i][j], b);
    }
  }

  // ----- what gathering collects -----

  predicate Distinct(ids: seq<nat>) {
    forall i, j :: 0 <= i < j < |ids| ==> ids[i] != ids[j]
  }

  /** Distinct non-zero bytes. */
  predicate Clean(ids: seq<nat>) {
    Bytes(ids) && Distinct(ids) && 0 !in ids
  }

  /** `x` is among the bytes before the first zero. */
  predicate BeforeZero(slots: seq<nat>, x: nat)
    decreases |slots|
  {
    slots != [] && slots[0] != 0 && (slots[0] == x || BeforeZero(slots[1..], x))
  }

  lemma {:induction false} GatherSlotsMeans(seen: seq<nat>, slots: seq<nat>, x: nat)
    ensures x in GatherSlots(seen, slots) <==> x in seen || BeforeZero(slots, x)
    decreases |slots|
  {
    if slots != [] && slots[0] != 0 {
      GatherSlotsMeans(if slots[0] in seen then seen else seen + [slots[0]], slots[1..], x);
    }
  }

  lemma {:induction false} PaddedBytes(bytes: seq<nat>, zeros: seq<nat>, x: nat)
    requires 0 !in bytes && (zeros == [] || zeros[0] == 0)
    ensures BeforeZero(bytes + zeros, x) <==> x in bytes
    decreases |bytes|
  {
    if bytes == [] {
      assert bytes + zeros == zeros;
    } else {
      PaddedBytes(bytes[1..], zeros, x);
      assert (bytes + zeros)[1..] == bytes[1..] + zeros;
    }
  }

  lemma {:induction false} GatherSlotsClean(seen: seq<nat>, slots: seq<nat>)
    requires Clean(seen) && Bytes(slots)
    ensures Clean(GatherSlots(seen, slots))
    decreases |slots|
  {
    if slots != [] && slots[0] != 0 {
      GatherSlotsClean(if slots[0] in seen then seen else seen + [slots[0]], slots[1..]);
    }
  }

  lemma {:induction false} GatherMeans(seen: seq<nat>, bases: seq<nat>, x: nat)
    ensures x in Gather(seen, bases) <==> x in seen || exists j :: 0 <= j < |bases| && BeforeZero(Slots(bases[j]), x)
    decreases |bases|
  {
    hide BeforeZero, GatherSlots, Slots;
    if bases != [] {
      var rest := bases[1..];
      GatherMeans(GatherSlots(seen, Slots(bases[0])), rest, x);
      GatherSlotsMeans(seen, Slots(bases[0]), x);
      if j :| 0 <= j < |rest| && BeforeZero(Slots(rest[j]), x) {
        assert BeforeZero(Slots(bases[j + 1]), x);
      }
      if j :| 0 <= j < |bases| && BeforeZero(Slots(bases[j]), x) {
        assert j > 0 ==> BeforeZero(Slots(rest[j - 1]), x);
      }
    }
  }

  lemma SlotsAreBytes(word: nat)
    ensures Bytes(Slots(word))
  {
    hide And;
    Pow2OfEight();
    forall j | 0 <= j < DEPTH_MAX
      ensures Slots(word)[j] < 256
    {
      AndWithMask(Shr(word, 8 * j), 8);
    }
  }

  lemma {:induction false} GatherClean(seen: seq<nat>, bases: seq<nat>)
    requires Clean(seen)
    ensures Clean(Gather(seen, bases))
    decreases |bases|
  {
    hide Slots, GatherSlots;
    if bases != [] {
      SlotsAreBytes(bases[0]);
      GatherSlotsClean(seen, Slots(bases[0]));
      GatherClean(GatherSlots(seen, Slots(bases[0])), bases[1..]);
    }
  }

  lemma SlotsOfPacked(bytes: seq<nat>)
    requires Bytes(bytes) && |bytes| <= DEPTH_MAX
    ensures Slots(Packed(bytes)) == bytes + Zeros(DEPTH_MAX - |bytes|)
  {
    hide Packed, Slot;
    forall j: nat | j < DEPTH_MAX
      ensures Slot(Packed(bytes), j) == (bytes + Zeros(DEPTH_MAX - |bytes|))[j]
    {
      SlotOfPacked(bytes, j);
    }
  }

  function Zeros(n: nat): (r: seq<nat>)
    ensures |r| == n && forall k :: 0 <= k < n ==> r[k] == 0
  {
    seq(n, _ => 0)
  }

  /** The bytes of a kind with own id `i` and ancestor ids `ids`, as its slots show them. */
  lemma SlotsOfKind(i: nat, ids: seq<nat>, x: nat)
    requires i < 256 && Clean(ids) && |ids| <= 7 && (i == 0 ==> ids == [])
    ensures BeforeZero(Slots(Packed([i] + ids)), x) <==> i != 0 && (x == i || x in ids)
    ensures x in Slots(Packed([i] + ids)) <==> x == i || x in ids || (x == 0 && |ids| < 7)
  {
    var bytes, zeros := [i] + ids, Zeros(7 - |ids|);
    SlotsOfPacked(bytes);
    hide Slots, Packed;
    if i == 0 {
      assert (bytes + zeros)[0] == 0;
    } else {
      PaddedBytes(bytes, zeros, x);
    }
    assert x in zeros <==> x == 0 && |ids| < 7 by {
      if |ids| < 7 {
        assert zeros[0] == 0;
      }
    }
  }

  // ----- what testing decides -----

  /** The ids gathered for kind `i` are exactly its ancestors', once each. */
  lemma {:induction false} GatheredAreAncestors(decls: seq<seq<nat>>, i: nat, x: nat)
    requires Declared(decls) && i < |decls| && ShallowBelow(decls, i)
    ensures Clean(Gather([], BaseWords(decls, i)))
    ensures x in Gather([], BaseWords(decls, i)) <==> x in Ancestors(decls, i)
    decreases i, 1, 0
  {
    var words := BaseWords(decls, i);
    GatherClean([], words);
    GatherMeans([], words, x);
    forall j | 0 <= j < |words|
      ensures BeforeZero(Slots(words[j]), x) <==>
          decls[i][j] != 0 && (x == decls[i][j] || x in Ancestors(decls, decls[i][j]))
    {
      BaseContributes(decls, decls[i][j], x);
    }
    hide BeforeZero, Gather, Slots;
    if 1 <= x < i && Inherits(decls, i, x) {
      var j :| 0 <= j < |decls[i]| && (decls[i][j] == x || Inherits(decls, decls[i][j], x));
      if decls[i][j] != x {
        InheritsFromEarlier(decls, decls[i][j], x);
      }
      assert BeforeZero(Slots(words[j]), x);
    }
  }

  lemma {:induction false} BaseContributes(decls: seq<seq<nat>>, c: nat, x: nat)
    requires Declared(decls) && c < |decls| && ShallowBelow(decls, c + 1)
    ensures BeforeZero(Slots(Word(decls, c)), x) <==> c != 0 && (x == c || x in Ancestors(decls, c))
    ensures x in Slots(Word(decls, c)) <==> x == c || x in Ancestors(decls, c) || (x == 0 && |Ancestors(decls, c)| < 7)
    decreases c, 2
  {
    hide Gather, Slots, BeforeZero, Inherits, Packed;
    var ids := Gather([], BaseWords(decls, c));
    WordShape(decls, c);
    SlotsOfKind(c, ids, x);
  }

  lemma {:induction false} WordShape(decls: seq<seq<nat>>, i: nat)
    requires Declared(decls) && i < |decls| && ShallowBelow(decls, i)
    ensures
      var ids := Gather([], BaseWords(decls, i));
      && Word(decls, i) == Packed([i] + FirstSeven(ids))
      && Clean(ids) && |ids| == |Ancestors(decls, i)|
      && forall x: nat :: x in ids <==> x in Ancestors(decls, i)
    decreases i, 1, 1
  {
    assert i % 256 == i;
    hide Gather, Packed, Inherits, Ancestors, Declared, ShallowBelow, FirstSeven, BaseWords, Distinct, Bytes;
    var ids := Gather([], BaseWords(decls, i));
    GatheredAreAncestors(decls, i, 0);
    forall x: nat
      ensures x in ids <==> x in Ancestors(decls, i)
    {
      GatheredAreAncestors(decls, i, x);
    }
    SameSize(ids, Ancestors(decls, i));
  }

  lemma {:induction false} SameSize(ids: seq<nat>, s: set<nat>)
    requires Distinct(ids) && forall x: nat :: x in ids <==> x in s
    ensures |ids| == |s|
    decreases |ids|
  {
    if ids == [] {
      assert s == {};
    } else {
      var last := ids[|ids| - 1];
      assert last in ids;
      var front := ids[..|ids| - 1];
      assert ids == front + [last];
      SameSize(front, s - {last});
    }
  }

  /** With at most seven ancestors each, the test decides ancestry exactly for every kind with a
      non-zero id; the kind made first has id zero, and testing for it finds an unused slot. */
  lemma IsDecidesAncestry(decls: seq<seq<nat>>, i: nat, b: nat)
    requires Declared(decls) && i < |decls| && b < |decls| && ShallowBelow(decls, |decls|)
    ensures Slot(Word(decls, b), 0) == b
    ensures b != 0 ==> (b in Slots(Word(decls, i)) <==> b == i || Inherits(decls, i, b))
    ensures b == 0 ==> (b in Slots(Word(decls, i)) <==> i == 0 || |Ancestors(decls, i)| < 7)
  {
    hide Gather, Packed, Slots, Slot;
    BaseContributes(decls, i, b);
    OwnSlot(decls, b);
    if Inherits(decls, i, b) {
      InheritsFromEarlier(decls, i, b);
    }
  }

  lemma OwnSlot(decls: seq<seq<nat>>, b: nat)
    requires Declared(decls) && b < |decls| && ShallowBelow(decls, b)
    ensures Slot(Word(decls, b), 0) == b
  {
    hide Gather, Packed, Inherits, Slot;
    WordShape(decls, b);
    SlotOfPacked([b] + FirstSeven(Gather([], BaseWords(decls, b))), 0);
  }

  /** Seven is exact: a kind with more ancestors fails the test for one of them. */
  lemma EighthAncestorIsLost(decls: seq<seq<nat>>, i: nat)
    requires Declared(decls) && i < |decls| && ShallowBelow(decls, i)
    ensures |Ancestors(decls, i)| <= 7 <==> forall b :: b in Ancestors(decls, i) ==> b in Slots(Word(decls, i))
  {
    hide Gather, Packed, Slots, Inherits;
    if |Ancestors(decls, i)| <= 7 {
      assert ShallowBelow(decls, i + 1);
      forall b | b in Ancestors(decls, i)
        ensures b in Slots(Word(decls, i))
      {
        BaseContributes(decls, i, b);
      }
    } else {
      WordShape(decls, i);
      var ids := Gather([], BaseWords(decls, i));
      SlotsOfPacked([i] + ids[..7]);
      assert ids[7] in ids;
      assert ids[7] !in [i] + ids[..7] + Zeros(0);
    }
  }
}
