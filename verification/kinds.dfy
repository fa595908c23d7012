/** Type kinds: 64-bit words holding a type's own id and the ids of its ancestors, a byte each. */
module Kinds {
  import opened Bits

  const DEPTH_MAX := 8

  /** Byte `j` of a kind. */
  function Slot(word: nat, j: nat): nat {
    And(Shr(word, 8 * j), 255)
  }

  function Slots(word: nat): (r: seq<nat>)
    ensures |r| == DEPTH_MAX
  {
    seq(DEPTH_MAX, j requires 0 <= j => Slot(word, j))
  }

  /** The word with the given bytes, lowest first. */
  function Packed(bytes: seq<nat>): nat {
    if bytes == [] then 0 else bytes[0] + 256 * Packed(bytes[1..])
  }

  predicate Bytes(bytes: seq<nat>) {
    forall j :: 0 <= j < |bytes| ==> bytes[j] < 256
  }

  /** The ids a base contributes: its bytes up to the first zero, skipping those already seen. */
  function GatherSlots(seen: seq<nat>, slots: seq<nat>): seq<nat>
    decreases |slots|
  {
    if slots == [] || slots[0] == 0 then seen
    else GatherSlots(if slots[0] in seen then seen else seen + [slots[0]], slots[1..])
  }

  function Gather(seen: seq<nat>, bases: seq<nat>): seq<nat>
    decreases |bases|
  {
    if bases == [] then seen else Gather(GatherSlots(seen, Slots(bases[0])), bases[1..])
  }

  function FirstSeven(ids: seq<nat>): seq<nat> {
    if |ids| <= 7 then ids else ids[..7]
  }

  /** The kind made as number `n` from `bases`: ids beyond the seventh fall off the word. */
  function Made(n: nat, bases: seq<nat>): nat {
    Packed([n % 256] + FirstSeven(Gather([], bases)))
  }

  // ----- packing bytes -----

  lemma Pow2OfEight()
    ensures Pow2(8) == 256 && Pow2(0) == 1
  {
    assert Pow2(4) == 16;
  }

  lemma {:induction false} PackedBound(bytes: seq<nat>)
    requires Bytes(bytes)
    ensures Packed(bytes) < Pow2(8 * |bytes|)
    decreases |bytes|
  {
    Pow2OfEight();
    if bytes != [] {
      PackedBound(bytes[1..]);
      Pow2Adds(8 * |bytes[1..]|, 8);
      PackedFits(Packed(bytes[1..]), bytes[0], 256, Pow2(8 * |bytes[1..]|));
    }
  }

  lemma {:induction false} PackedSnoc(bytes: seq<nat>, b: nat)
    ensures Packed(bytes + [b]) == Packed(bytes) + b * Pow2(8 * |bytes|)
    decreases |bytes|
  {
    Pow2OfEight();
    if bytes == [] {
      assert [b][1..] == [];
    } else {
      var rest := bytes[1..];
      assert (bytes + [b])[1..] == rest + [b];
      PackedSnoc(rest, b);
      Pow2Adds(8 * |rest|, 8);
      MulAssociates(b, Pow2(8 * |rest|), 256);
    }
  }

  lemma {:induction false} OrCommutes(a: nat, b: nat)
    ensures Or(a, b) == Or(b, a)
    decreases a + b
  {
    if a != 0 || b != 0 {
      OrCommutes(a / 2, b / 2);
    }
  }

  /** Oring a byte into the next free slot appends it; past the eighth slot it is lost. */
  lemma OrAppends(bytes: seq<nat>, b: nat)
    requires Bytes(bytes) && b < 256
    ensures |bytes| < 8 ==> Or(Packed(bytes), Shl(b, 8 * |bytes|)) == Packed(bytes + [b])
  {
    if |bytes| < 8 {
      hide Pow2, Or, Shl, Packed;
      var k := 8 * |bytes|;
      PackedBound(bytes);
      PackedSnoc(bytes, b);
      Pow2OfEight();
      NoOverflow(b, 8, k);
      OrCommutes(Packed(bytes), b * Pow2(k));
      OrIntoLowBits(b, Packed(bytes), k);
    }
  }

  lemma OrOverflows(word: nat, b: nat, k: nat)
    requires k >= 64
    ensures Or(word, Shl(b, k)) == word
  {
    hide Pow2, Or;
    WordIsPow2();
    Pow2Adds(k - 64, 64);
    MulAssociates(b, Pow2(k - 64), WORD);
    Unpacks(b * Pow2(k - 64), 0, WORD);
    OrZero(word);
  }

  /** Reading a slot of a packed word gives the byte, or zero past the end. */
  lemma {:induction false} SlotOfPacked(bytes: seq<nat>, j: nat)
    requires Bytes(bytes)
    ensures Slot(Packed(bytes), j) == if j < |bytes| then bytes[j] else 0
    decreases j
  {
    hide Pow2, And;
    Pow2OfEight();
    var word := Packed(bytes);
    AndWithMask(Shr(word, 8 * j), 8);
    if bytes == [] {
      Unpacks(0, 0, Pow2(8 * j));
    } else if j == 0 {
      Unpacks(Packed(bytes[1..]), bytes[0], 256);
      Unpacks(word, 0, 1);
    } else {
      SlotOfPacked(bytes[1..], j - 1);
      AndWithMask(Shr(Packed(bytes[1..]), 8 * (j - 1)), 8);
      Pow2Adds(8, 8 * (j - 1));
      Unpacks(Packed(bytes[1..]), bytes[0], 256);
      DivTwice(word, 256, Pow2(8 * (j - 1)));
    }
  }

  lemma DivTwice(x: nat, a: nat, b: nat)
    requires a > 0 && b > 0
    ensures a * b > 0 && x / (a * b) == x / a / b
  {
    assert x == (x / a) * a + x % a && x / a == (x / a / b) * b + (x / a) % b;
    Recombine(x / a / b, (x / a) % b, x % a, a, b);
  }

  lemma Recombine(q: nat, r: nat, s: nat, a: nat, b: nat)
    requires r < b && s < a
    ensures a * b > 0 && ((q * b + r) * a + s) / (a * b) == q
  {
    Distribute(q * b, r, a);
    MulAssociates(q, b, a);
    PackedFits(r, s, a, b);
    Unpacks(q, r * a + s, b * a);
  }

  // ----- the package's functions -----

  class Registry {
    /** The global counter. */
    var n: nat

    constructor ()
      ensures n == 0
    {
      n := 0;
    }

    method Make(bases: seq<nat>) returns (word: nat)
      modifies this
      ensures n == old(n) + 1
      ensures word == Made(old(n), bases)
    {
      var own := And(n, 255);
      AndWithMask(n, 8);
      Pow2OfEight();
      n := n + 1;
      word := own;
      var ids: set<nat> := {};
      ghost var list: seq<nat> := [];
      assert Packed([own]) == own;
      hide And, Or, Shl, Packed;
      for i := 0 to |bases|
        invariant n == old(n) + 1 && own == old(n) % 256
        invariant Tracks(word, own, ids, list)
        invariant Gather(list, bases[i..]) == Gather([], bases)
      {
        var j := 0;
        ghost var before := list;
        while j < DEPTH_MAX
          invariant 0 <= j <= DEPTH_MAX && n == old(n) + 1
          invariant Tracks(word, own, ids, list)
          invariant GatherSlots(list, Slots(bases[i])[j..]) == GatherSlots(before, Slots(bases[i]))
        {
          var baseId := Slot(bases[i], j);
          assert Slots(bases[i])[j..][0] == baseId;
          if baseId == 0 {
            break;
          }
          assert Slots(bases[i])[j..][1..] == Slots(bases[i])[j + 1..];
          if baseId !in ids {
            AndWithMask(Shr(bases[i], 8 * j), 8);
            TracksNext(word, own, ids, list, baseId);
            ids := ids + {baseId};
            list := list + [baseId];
            word := Or(word, Shl(baseId, 8 * |ids|));
          }
          j := j + 1;
        }
        assert bases[i..][0] == bases[i] && bases[i..][1..] == bases[i + 1..];
      }
    }
  }

  /** `list` is the order in which `ids` were met, and the word holds the first seven. */
  ghost predicate Tracks(word: nat, own: nat, ids: set<nat>, list: seq<nat>) {
    && own < 256 && Bytes(list)
    && word == Packed([own] + FirstSeven(list))
    && |ids| == |list| && (forall x :: x in ids <==> x in list)
  }

  lemma TracksNext(word: nat, own: nat, ids: set<nat>, list: seq<nat>, b: nat)
    requires Tracks(word, own, ids, list) && b !in ids && b < 256
    ensures Tracks(Or(word, Shl(b, 8 * |ids + {b}|)), own, ids + {b}, list + [b])
  {
    hide Or, Shl;
    assert |ids + {b}| == |list| + 1;
    if |list| < 7 {
      OrAppends([own] + list, b);
      assert [own] + list + [b] == [own] + (list + [b]);
    } else {
      OrOverflows(word, b, 8 * |ids + {b}|);
      assert FirstSeven(list + [b]) == FirstSeven(list);
    }
  }

  /** Whether some base's own id is among the kind's bytes. */
  method Is(word: nat, bases: seq<nat>) returns (r: bool)
    ensures r <==> exists i :: 0 <= i < |bases| && Slot(bases[i], 0) in Slots(word)
  {
    for i := 0 to |bases|
      invariant forall k :: 0 <= k < i ==> Slot(bases[k], 0) !in Slots(word)
    {
      var baseId := And(bases[i], 255);
      assert baseId == Slot(bases[i], 0) by {
        Unpacks(bases[i], 0, 1);
      }
      if word == baseId {
        WholeWordIsItsId(word, bases[i]);
        return true;
      }
      for j := 0 to DEPTH_MAX
        invariant forall k :: 0 <= k < j ==> Slots(word)[k] != baseId
      {
        var currentId := Slot(word, j);
        if currentId == baseId {
          assert Slots(word)[j] == baseId;
          return true;
        }
      }
    }
    return false;
  }

  /** The shortcut for a kind without ancestors decides what its first byte would. */
  lemma WholeWordIsItsId(word: nat, base: nat)
    requires word == And(base, 255)
    ensures Slot(base, 0) in Slots(word)
  {
    hide And, Pow2;
    Pow2OfEight();
    AndWithMask(base, 8);
    AndWithMask(word, 8);
    Unpacks(base, 0, 1);
    Unpacks(word, 0, 1);
    assert Slots(word)[0] == word;
  }

  method List(word: nat) returns (bases: seq<nat>)
    ensures bases == Slots(word)[1..] + [0]
  {
    var a := new nat[DEPTH_MAX](_ => 0);
    for i := 1 to DEPTH_MAX
      invariant a[..i - 1] == Slots(word)[1..i]
      invariant a[DEPTH_MAX - 1] == 0
    {
      a[i - 1] := Slot(word, i);
    }
    bases := a[..];
  }
}
