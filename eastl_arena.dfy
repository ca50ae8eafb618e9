/**
 * The EASTL-compatible arena (`surge::arena_allocator`). A block of `n` bytes
 * consumes `n + (alignment - free_index mod alignment) + offset` bytes of the
 * arena. Offsets are measured from the start of the backing vector, whose own
 * address is taken to be suitably aligned.
 */
module EastlArena {
  import opened Machine
  import opened AllocUtil

  /** `data_buffer` is the backing vector; `capacity` is `arena_capacity`. */
  datatype Arena = Arena(buffer: seq<u8>, capacity: nat, freeIndex: nat, allocs: int)

  datatype Outcome = Outcome(state: Arena, ptr: Ptr)

  /** Indexes stay within the capacity. */
  predicate Inv(a: Arena)
  {
    a.freeIndex <= a.capacity
  }

  /** Constructor: a vector of `capacity` zero bytes, nothing allocated. */
  function Init(capacity: nat): (r: Arena)
    ensures Inv(r) && |r.buffer| == r.capacity == capacity && r.freeIndex == 0 && r.allocs == 0
  {
    Arena(Zeros(capacity), capacity, 0, 0)
  }

  /** The padding the allocation adds: `alignment - free_index mod alignment`, between 1 and `alignment`. */
  function Padding(freeIndex: nat, alignment: nat): (r: nat)
    requires alignment > 0
    ensures 0 < r <= alignment && (freeIndex + r) % alignment == 0
  {
    var q := freeIndex / alignment;
    var m := freeIndex % alignment;
    assert freeIndex + (alignment - m) == alignment * (q + 1) + 0 by {
      assert freeIndex == alignment * q + m;
    }
    ModUnique(freeIndex + (alignment - m), alignment, q + 1, 0);
    alignment - m
  }

  /** The bytes one request consumes. */
  function Consumed(a: Arena, n: nat, alignment: nat, offset: nat): nat
    requires alignment > 0
  {
    n + Padding(a.freeIndex, alignment) + offset
  }

  /** `allocate` as written: the padding is added after the block, and the old, unaligned `free_index` is returned. */
  function AllocateAsWritten(a: Arena, n: nat, alignment: nat, offset: nat): (r: Outcome)
    ensures alignment == 0 ==> r == Outcome(a, Null)
    ensures alignment > 0 ==>
      (r.ptr.At? <==> a.freeIndex + Consumed(a, n, alignment, offset) <= a.capacity)
    ensures r.ptr.At? ==> r.ptr.offset == a.freeIndex
  {
    if alignment == 0 then Outcome(a, Null)
    else
      var actual := Consumed(a, n, alignment, offset);
      if a.freeIndex + actual > a.capacity then Outcome(a, Null)
      else Outcome(a.(freeIndex := a.freeIndex + actual, allocs := a.allocs + 1), At(a.freeIndex))
  }

  /**
   * `allocate` corrected: the same bytes are consumed and the same capacity
   * check made, but the block returned starts after the padding, on an
   * aligned index.
   */
  function Allocate(a: Arena, n: nat, alignment: nat, offset: nat): (r: Outcome)
    requires Inv(a)
    ensures Inv(r.state) && r.state.buffer == a.buffer && r.state.capacity == a.capacity
    ensures alignment == 0 ==> r == Outcome(a, Null)
    ensures alignment > 0 ==>
      (r.ptr.At? <==> a.freeIndex + Consumed(a, n, alignment, offset) <= a.capacity)
    ensures r.ptr.At? ==>
      && r.ptr.offset % alignment == 0
      && a.freeIndex < r.ptr.offset && r.ptr.offset + n + offset == r.state.freeIndex <= a.capacity
      && r.state.allocs == a.allocs + 1
    ensures r.ptr.Null? ==> r.state == a
  {
    if alignment == 0 then Outcome(a, Null)
    else
      var actual := Consumed(a, n, alignment, offset);
      if a.freeIndex + actual > a.capacity then Outcome(a, Null)
      else
        var start := a.freeIndex + Padding(a.freeIndex, alignment);
        Outcome(a.(freeIndex := a.freeIndex + actual, allocs := a.allocs + 1), At(start))
  }

  /** `allocate(n, flags)`: pointer-size alignment and no offset. */
  function AllocateDefault(a: Arena, n: nat): (r: Outcome)
    requires Inv(a)
    ensures r.ptr.At? ==> r.ptr.offset % POINTER_SIZE == 0 && r.ptr.offset + n <= a.capacity
    ensures r.ptr.At? <==> a.freeIndex + Consumed(a, n, POINTER_SIZE, 0) <= a.capacity
  {
    Allocate(a, n, POINTER_SIZE, 0)
  }

  /** `deallocate`: nothing is released; only the allocation count drops. */
  function Deallocate(a: Arena): (r: Arena)
    ensures r.freeIndex == a.freeIndex && r.buffer == a.buffer && r.allocs == a.allocs - 1
  {
    a.(allocs := a.allocs - 1)
  }

  /** `reset` as written: the index and count go to zero, and the backing vector is cleared to length 0. */
  function ResetAsWritten(a: Arena): (r: Arena)
    ensures r.freeIndex == 0 && r.allocs == 0 && r.capacity == a.capacity && |r.buffer| == 0
  {
    a.(freeIndex := 0, allocs := 0, buffer := [])
  }

  /** `reset` corrected: back to the configuration the constructor builds. */
  function Reset(a: Arena): (r: Arena)
    ensures r == Init(a.capacity)
  {
    Init(a.capacity)
  }

  /** The arena's storage covers its capacity. */
  predicate Backed(a: Arena)
  {
    |a.buffer| == a.capacity
  }

  /** Allocations return blocks inside the backing vector as long as the arena stays backed. */
  lemma AllocationIsBacked(a: Arena, n: nat, alignment: nat, offset: nat)
    requires Inv(a) && Backed(a)
    ensures var r := Allocate(a, n, alignment, offset);
      Backed(r.state) && (r.ptr.At? ==> r.ptr.offset + n <= |r.state.buffer|)
  {
  }

  /** The corrected `reset` keeps the arena backed. */
  lemma ResetKeepsStorage(a: Arena)
    ensures Backed(Reset(a)) && Inv(Reset(a))
  {
  }

  /** Successive allocations with the corrected `allocate` never overlap. */
  lemma SuccessiveBlocksDisjoint(a: Arena, n1: nat, al1: nat, o1: nat, n2: nat, al2: nat, o2: nat)
    requires Inv(a)
    requires Allocate(a, n1, al1, o1).ptr.At?
    requires Allocate(Allocate(a, n1, al1, o1).state, n2, al2, o2).ptr.At?
    ensures var r1 := Allocate(a, n1, al1, o1);
      var r2 := Allocate(r1.state, n2, al2, o2);
      r1.ptr.offset + n1 + o1 < r2.ptr.offset
  {
  }

  /**
   * Counterexample: in a 64-byte arena, two one-byte allocations with
   * alignment 8 return indices 0 and 9; the second is not 8-aligned.
   */
  lemma AllocateAsWrittenIsUnaligned()
    ensures var r1 := AllocateAsWritten(Init(64), 1, 8, 0);
      var r2 := AllocateAsWritten(r1.state, 1, 8, 0);
      r2.ptr == At(9) && r2.ptr.offset % 8 != 0
  {
    var r1 := AllocateAsWritten(Init(64), 1, 8, 0);
    assert r1.ptr == At(0) && r1.state.freeIndex == 9;
  }

  /**
   * Counterexample: after the as-written `reset`, an allocation succeeds and
   * returns index 0 of a vector that has no elements.
   */
  lemma ResetAsWrittenLeavesNoStorage()
    ensures var r := AllocateAsWritten(ResetAsWritten(Init(16)), 1, 8, 0);
      r.ptr == At(0) && r.ptr.offset >= |r.state.buffer|
  {
  }
}

/** The EASTL arena as an object whose fields change in place. */
module EastlArenaClass {
  import opened Machine
  import opened AllocUtil
  import opened EastlArena

  class ArenaAllocator {
    var buffer: seq<u8>
    const capacity: nat
    var freeIndex: nat
    var allocs: int

    function Model(): Arena
      reads this
    {
      Arena(buffer, capacity, freeIndex, allocs)
    }

    constructor (cap: nat)
      ensures Model() == Init(cap)
    {
      buffer := Zeros(cap);
      capacity := cap;
      freeIndex := 0;
      allocs := 0;
    }

    method Allocate(n: nat, alignment: nat, offset: nat) returns (ptr: Ptr)
      requires Inv(Model())
      modifies this
      ensures Outcome(Model(), ptr) == EastlArena.Allocate(old(Model()), n, alignment, offset)
    {
      if alignment == 0 {
        return Null;
      }
      // `is_pow_2` selects a mask; for a power of two it is the remainder
      var modulo: nat;
      if IsPowerOfTwo(alignment) {
        BitAndMaskIsMod(freeIndex, alignment);
        modulo := BitAnd(freeIndex, alignment - 1);
      } else {
        modulo := freeIndex % alignment;
      }
      var endIndex := freeIndex + n + (alignment - modulo) + offset;
      if endIndex > capacity {
        return Null;
      }
      ptr := At(freeIndex + (alignment - modulo));
      freeIndex := endIndex;
      allocs := allocs + 1;
    }

    method Deallocate(ptr: Ptr, n: nat)
      modifies this
      ensures Model() == EastlArena.Deallocate(old(Model()))
    {
      allocs := allocs - 1;
    }

    method Reset()
      modifies this
      ensures Model() == EastlArena.Reset(old(Model()))
    {
      freeIndex := 0;
      allocs := 0;
      buffer := Zeros(capacity);
    }
  }
}
