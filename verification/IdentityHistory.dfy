/** The exact set of identities ever handed out, kept as 64-bit blocks. */
module IdentityHistory {
  type Word = bv64

  predicate Has(w: Word, j: bv6) { w & ((1 as Word) << j) != 0 }

  function With(w: Word, j: bv6): Word { w | ((1 as Word) << j) }

  /** Slot `j` of block `b` is set. */
  predicate Set(blocks: map<int, Word>, b: int, j: bv6) {
    b in blocks && Has(blocks[b], j)
  }

  function Mark(blocks: map<int, Word>, b: int, j: bv6): map<int, Word> {
    blocks[b := With(if b in blocks then blocks[b] else 0, j)]
  }

  function Slot(id: int): bv6 { (id % 64) as bv6 }

  predicate Holds(blocks: map<int, Word>, id: int) {
    id > 0 && Set(blocks, id / 64, Slot(id))
  }

  lemma OrBits(w: Word, a: Word, b: Word)
    ensures (w | b) & a == (w & a) | (b & a)
  {
  }

  lemma OrZero(x: Word, y: Word)
    ensures x | y != 0 <==> x != 0 || y != 0
  {
  }

  lemma OrTest(w: Word, a: Word, b: Word)
    ensures (w | b) & a != 0 <==> w & a != 0 || b & a != 0
  {
    OrBits(w, a, b);
    OrZero(w & a, b & a);
  }

  lemma ShiftsApart(j: bv6, k: bv6)
    ensures ((1 as Word) << k) & ((1 as Word) << j) != 0 <==> j == k
  {
  }

  lemma ShiftTest(w: Word, k: bv6, j: bv6)
    ensures (w | ((1 as Word) << k)) & ((1 as Word) << j) != 0 <==> j == k || w & ((1 as Word) << j) != 0
  {
    OrTest(w, (1 as Word) << j, (1 as Word) << k);
    ShiftsApart(j, k);
  }

  /** One word: the bit set is there, the others are as they were. */
  lemma WithHas(w: Word, v: Word, k: bv6, j: bv6)
    requires v == w | ((1 as Word) << k)
    ensures Has(v, j) <==> j == k || Has(w, j)
  {
    ShiftTest(w, k, j);
  }

  lemma NoneHas(j: bv6)
    ensures !Has(0, j)
  {
  }

  lemma MarkSetsOne(blocks: map<int, Word>, b: int, k: bv6, c: int, j: bv6)
    ensures Set(Mark(blocks, b, k), c, j) <==> (c == b && j == k) || Set(blocks, c, j)
  {
    var w := if b in blocks then blocks[b] else 0;
    var v := With(w, k);
    if b == c { WithHas(w, v, k, j); }
    NoneHas(j);
    hide Has, With;
  }

  lemma Converted(j: nat, k: nat)
    requires j < 64 && k < 64
    ensures j as bv6 == k as bv6 <==> j == k
  {
    assert (j as bv6) as nat == j;
  }

  lemma SlotsApart(id: int, other: int)
    requires id / 64 == other / 64
    ensures Slot(id) == Slot(other) <==> id == other
  {
    Converted(id % 64, other % 64);
    assert id == 64 * (id / 64) + id % 64 && other == 64 * (other / 64) + other % 64;
  }

  /** Setting one bit adds one identity to the set and disturbs no other. */
  lemma MarkAddsOne(blocks: map<int, Word>, id: int, other: int)
    requires id > 0
    ensures Holds(Mark(blocks, id / 64, Slot(id)), other) <==> other == id || Holds(blocks, other)
  {
    var b, c, k, j := id / 64, other / 64, Slot(id), Slot(other);
    MarkSetsOne(blocks, b, k, c, j);
    if b == c { SlotsApart(id, other); }
  }

  class History {
    var blocks: map<int, Word>
    var identities: nat
    ghost var members: set<int>

    ghost predicate Valid()
      reads this
    {
      && identities == |members|
      && forall id :: id in members <==> Holds(blocks, id)
    }

    constructor ()
      ensures Valid() && members == {}
    {
      blocks, identities, members := map[], 0, {};
    }

    method Contains(id: int) returns (known: bool)
      requires Valid()
      ensures known <==> id in members
    {
      known := Holds(blocks, id);
    }

    /** False, and no change, for an invalid or reused identity. */
    method Insert(id: int) returns (added: bool)
      requires Valid()
      modifies this
      ensures Valid()
      ensures added <==> id > 0 && id !in old(members)
      ensures members == if added then old(members) + {id} else old(members)
      ensures !added ==> blocks == old(blocks)
    {
      var known := Contains(id);
      added := id > 0 && !known;
      if added {
        forall other ensures Holds(Mark(blocks, id / 64, Slot(id)), other) <==> other == id || Holds(blocks, other) {
          MarkAddsOne(blocks, id, other);
        }
        blocks := Mark(blocks, id / 64, Slot(id));
        identities := identities + 1;
        members := members + {id};
      }
    }
  }
}
