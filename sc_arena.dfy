/**
 * The arenas of the newer core: a fixed-capacity arena over a zeroed byte
 * vector, and a dynamic arena that grows its block when it fills up. Both
 * bump an offset and zero every block they hand out.
 */
module ScArena {
  import opened Machine
  import opened AllocUtil
  import opened Wrappers

  /** `is_pow_2` of the core: `x & (x - 1) == 0` on `usize`, which also admits 0. */
  predicate AlignmentAccepted(alignment: u64)
  {
    IsPow2(alignment)
  }

  /** The padded size as written: `size + (size & (alignment - 1))`. */
  function ActualSizeAsWritten(size: u64, alignment: u64): nat
  {
    size + BitAnd(size, Wrap64(alignment - 1))
  }

  /** The padded size corrected: `size` rounded up to a multiple of the alignment. */
  function ActualSize(size: u64, alignment: u64): (r: nat)
    requires alignment > 0
    ensures r % alignment == 0 && size <= r < size + alignment
  {
    var m := size % alignment;
    if m == 0 then size
    else
      var q := size / alignment;
      assert size + (alignment - m) == alignment * (q + 1) + 0 by {
        assert size == alignment * q + m;
      }
      ModUnique(size + (alignment - m), alignment, q + 1, 0);
      size + (alignment - m)
  }

  /** The fixed arena: `data` has `capacity` bytes; `offset` is the first free one. */
  datatype Arena = Arena(data: seq<u8>, offset: nat)

  datatype Outcome = Outcome(state: Arena, ptr: Ptr)

  predicate Inv(a: Arena)
  {
    a.offset <= |a.data|
  }

  /** The constructor: `capacity` zero bytes, offset 0. */
  function Init(capacity: nat): (r: Arena)
    ensures Inv(r) && |r.data| == capacity && r.offset == 0
  {
    Arena(Zeros(capacity), 0)
  }

  /** The common tail of `allocate`: refuse when the new offset reaches the capacity, else zero and bump. */
  function Bump(a: Arena, actual: nat): (r: Outcome)
    requires Inv(a)
    ensures Inv(r.state) && |r.state.data| == |a.data|
    ensures r.ptr.At? <==> a.offset + actual < |a.data|
    ensures r.ptr.At? ==>
      && r.ptr == At(a.offset) && r.state.offset == a.offset + actual
      && forall k :: a.offset <= k < a.offset + actual ==> r.state.data[k] == 0
    ensures r.ptr.Null? ==> r.state == a
  {
    if a.offset + actual >= |a.data| then Outcome(a, Null)
    else Outcome(Arena(Splice(a.data, a.offset, Zeros(actual)), a.offset + actual), At(a.offset))
  }

  /** `arena::allocate` as written. */
  function AllocateAsWritten(a: Arena, size: u64, alignment: u64): (r: Outcome)
    requires Inv(a)
    ensures Inv(r.state)
    ensures r.ptr.At? <==> AlignmentAccepted(alignment) && a.offset + ActualSizeAsWritten(size, alignment) < |a.data|
  {
    if !AlignmentAccepted(alignment) then Outcome(a, Null)
    else Bump(a, ActualSizeAsWritten(size, alignment))
  }

  /** `arena::allocate` corrected: padded to a multiple of the alignment, which must be a non-zero power of two. */
  function Allocate(a: Arena, size: u64, alignment: u64): (r: Outcome)
    requires Inv(a)
    ensures Inv(r.state) && |r.state.data| == |a.data|
    ensures r.ptr.At? <==>
      && alignment != 0 && AlignmentAccepted(alignment)
      && a.offset + ActualSize(size, alignment) < |a.data|
    ensures r.ptr.At? ==>
      && r.ptr.offset == a.offset && r.state.offset >= a.offset + size
      && (a.offset % alignment == 0 ==> r.state.offset % alignment == 0)
      && forall k :: a.offset <= k < a.offset + size ==> r.state.data[k] == 0
    ensures r.ptr.Null? ==> r.state == a
  {
    if alignment == 0 || !AlignmentAccepted(alignment) then Outcome(a, Null)
    else
      var actual := ActualSize(size, alignment);
      var r := Bump(a, actual);
      if r.ptr.At? then
        AlignedSum(a.offset, actual, alignment);
        r
      else r
  }

  /** `reset`: the offset goes back to 0; the bytes stay. */
  function Reset(a: Arena): (r: Arena)
    ensures Inv(r) && r.offset == 0 && r.data == a.data
  {
    a.(offset := 0)
  }

  /** `size`: the bytes in use. */
  function Size(a: Arena): (r: nat)
    ensures r == a.offset
  {
    a.offset
  }

  lemma AlignedSum(x: nat, y: nat, m: nat)
    requires m > 0 && y % m == 0
    ensures x % m == 0 ==> (x + y) % m == 0
  {
    if x % m == 0 {
      var qx := x / m;
      var qy := y / m;
      assert x + y == m * (qx + qy) + 0;
      ModUnique(x + y, m, qx + qy, 0);
    }
  }

  /** Allocate each size in turn with one alignment; the pointers of the successful ones, in order. */
  function AllocateAll(a: Arena, sizes: seq<u64>, alignment: u64): (r: (Arena, seq<Ptr>))
    requires Inv(a)
    ensures Inv(r.0) && |r.1| == |sizes|
    decreases |sizes|
  {
    if |sizes| == 0 then (a, [])
    else
      var first := Allocate(a, sizes[0], alignment);
      var rest := AllocateAll(first.state, sizes[1..], alignment);
      (rest.0, [first.ptr] + rest.1)
  }

  /** From an aligned offset (such as after `reset`), every block of a run with one alignment is aligned. */
  lemma {:induction false} AllocateAllAligned(a: Arena, sizes: seq<u64>, alignment: u64)
    requires Inv(a) && alignment > 0 && a.offset % alignment == 0
    ensures var r := AllocateAll(a, sizes, alignment);
      r.0.offset % alignment == 0
      && forall i :: 0 <= i < |r.1| && r.1[i].At? ==> r.1[i].offset % alignment == 0
    decreases |sizes|
  {
    if |sizes| > 0 {
      var first := Allocate(a, sizes[0], alignment);
      assert first.state.offset % alignment == 0;
      AllocateAllAligned(first.state, sizes[1..], alignment);
      var rest := AllocateAll(first.state, sizes[1..], alignment);
      assert AllocateAll(a, sizes, alignment).1 == [first.ptr] + rest.1;
    }
  }

  /**
   * Counterexample: in a 64-byte arena, `allocate(3, 4)` consumes 6 bytes,
   * so the following `allocate(4, 4)` returns offset 6, which is not a
   * multiple of 4.
   */
  lemma AllocateAsWrittenIsUnaligned()
    ensures var r1 := AllocateAsWritten(Init(64), 3, 4);
      var r2 := AllocateAsWritten(r1.state, 4, 4);
      r1.ptr == At(0) && r2.ptr == At(6) && r2.ptr.offset % 4 != 0
  {
    IsPow2Exactly(4);
    assert BitAnd(3, 3) == 3 by {
      assert BitAnd(1, 1) == 1;
    }
    assert BitAnd(4, 3) == 0 by {
      assert BitAnd(2, 1) == 0 by {
        assert BitAnd(1, 0) == 0;
      }
    }
    var r1 := AllocateAsWritten(Init(64), 3, 4);
    assert r1.state.offset == 6;
  }

  /** The dynamic arena: `live` holds the `current_offset` bytes in use. */
  datatype Dynamic = Dynamic(capacity: nat, live: seq<u8>)

  /** The error codes the dynamic arena reports. */
  datatype ArenaError = InitFailed | AllocFailed | GrowFailed

  predicate DynamicInv(d: Dynamic)
  {
    |d.live| <= d.capacity
  }

  /** `dynamic_arena_init`; `granted` says whether the system allocator supplied the block. */
  function DynamicInit(initialSize: nat, granted: bool): (r: Result<Dynamic, ArenaError>)
    ensures r.Ok? <==> granted
    ensures r.Ok? ==> DynamicInv(r.value) && r.value == Dynamic(initialSize, [])
    ensures r.Err? ==> r.error == InitFailed
  {
    if granted then Ok(Dynamic(initialSize, [])) else Err(InitFailed)
  }

  /** A block handed out: its offset and the arena after it. */
  datatype Grant = Grant(state: Dynamic, offset: nat)

  /** `dynamic_arena_malloc` as written: a full arena doubles its capacity once, however large the request. */
  function DynamicMallocAsWritten(d: Dynamic, size: u64, alignment: u64, granted: bool): (r: Result<Grant, ArenaError>)
    ensures r.Ok? ==> r.value.offset == |d.live| && |r.value.state.live| == |d.live| + ActualSizeAsWritten(size, alignment)
  {
    if !AlignmentAccepted(alignment) then Err(AllocFailed)
    else
      var actual := ActualSizeAsWritten(size, alignment);
      var newOffset := |d.live| + actual;
      if newOffset >= d.capacity && !granted then Err(GrowFailed)
      else
        var capacity := if newOffset >= d.capacity then 2 * d.capacity else d.capacity;
        Ok(Grant(Dynamic(capacity, d.live + Zeros(actual)), |d.live|))
  }

  /** The capacity the corrected growth reaches: doubling from `c` until `needed` fits strictly below it. */
  function GrownCapacity(c: nat, needed: nat): (r: nat)
    requires c >= 1
    ensures r > needed && r >= c
    decreases needed + 1 - c
  {
    if needed < c then c else GrownCapacity(2 * c, needed)
  }

  /** The capacity the corrected arena grows to when `newOffset` does not fit. */
  function GrowTarget(capacity: nat, newOffset: nat): (r: nat)
    ensures r > newOffset && r >= capacity
  {
    GrownCapacity(if capacity == 0 then 1 else 2 * capacity, newOffset)
  }

  /** `dynamic_arena_malloc` corrected: the capacity keeps doubling until the block fits. */
  function DynamicMalloc(d: Dynamic, size: u64, alignment: u64, granted: bool): (r: Result<Grant, ArenaError>)
    requires DynamicInv(d)
    ensures r.Ok? <==>
      && AlignmentAccepted(alignment) && alignment != 0
      && (|d.live| + ActualSize(size, alignment) >= d.capacity ==> granted)
    ensures r.Err? && alignment != 0 && AlignmentAccepted(alignment) ==> r.error == GrowFailed
    ensures r.Ok? ==> var s := r.value.state;
      DynamicInv(s) && r.value.offset == |d.live| && s.capacity >= d.capacity
      && r.value.offset + size <= |s.live| < s.capacity
      && s.live[..|d.live|] == d.live
      && forall k :: |d.live| <= k < |s.live| ==> s.live[k] == 0
  {
    if alignment == 0 || !AlignmentAccepted(alignment) then Err(AllocFailed)
    else
      var actual := ActualSize(size, alignment);
      var newOffset := |d.live| + actual;
      if newOffset >= d.capacity && !granted then Err(GrowFailed)
      else
        var capacity := if newOffset >= d.capacity then GrowTarget(d.capacity, newOffset) else d.capacity;
        var live := d.live + Zeros(actual);
        assert live[..|d.live|] == d.live;
        Ok(Grant(Dynamic(capacity, live), |d.live|))
  }

  /** `dynamic_arena_reset`: nothing is in use any more; the capacity stays. */
  function DynamicReset(d: Dynamic): (r: Dynamic)
    ensures DynamicInv(r) && r.capacity == d.capacity && r.live == []
  {
    Dynamic(d.capacity, [])
  }

  /**
   * Counterexample: a 16-byte dynamic arena asked for 64 bytes grows to 32
   * bytes only, yet hands out a 64-byte block from offset 0.
   */
  lemma DynamicMallocAsWrittenOverflows()
    ensures var r := DynamicMallocAsWritten(Dynamic(16, []), 64, 1, true);
      r.Ok? && r.value.state.capacity == 32 && |r.value.state.live| > r.value.state.capacity
  {
    IsPow2Exactly(1);
    assert BitAnd(64, 0) == 0;
  }
}

/** The arenas as objects whose offset (and, for the dynamic arena, block) change in place. */
module ScArenaClass {
  import opened Machine
  import opened AllocUtil
  import opened Wrappers
  import opened ScArena

  /** `mimalloc::arena`. */
  class FixedArena {
    const data: array<u8>
    var offset: nat

    function Model(): ScArena.Arena
      reads this, data
    {
      ScArena.Arena(data[..], offset)
    }

    predicate Valid()
      reads this, data
    {
      ScArena.Inv(Model())
    }

    constructor (capacity: nat)
      ensures Valid() && fresh(data) && Model() == ScArena.Init(capacity)
    {
      data := new u8[capacity](_ => 0);
      offset := 0;
    }

    /** The padding is computed with masks, as the core does. */
    method Allocate(size: u64, alignment: u64) returns (ptr: Ptr)
      requires Valid()
      modifies this, data
      ensures Valid() && Outcome(Model(), ptr) == ScArena.Allocate(old(Model()), size, alignment)
    {
      if alignment == 0 || !IsPow2(alignment) {
        return Null;
      }
      var actual := MaskedActualSize(size, alignment);
      var newOffset := offset + actual;
      if newOffset >= data.Length {
        return Null;
      }
      ptr := At(offset);
      Overwrite(data, offset, Zeros(actual));
      offset := newOffset;
    }

    method Reset()
      modifies this
      ensures Valid() && Model() == ScArena.Reset(old(Model()))
    {
      offset := 0;
    }

    method Size() returns (n: nat)
      ensures n == ScArena.Size(Model())
    {
      n := offset;
    }
  }

  /** `dynamic_arena`: `data` is the current block; growing replaces it with a larger copy. */
  class DynamicArena {
    var data: array<u8>
    var offset: nat

    function Model(): Dynamic
      reads this, data
      requires offset <= data.Length
    {
      Dynamic(data.Length, data[..offset])
    }

    predicate Valid()
      reads this
    {
      offset <= data.Length
    }

    constructor (initialSize: nat)
      ensures Valid() && fresh(data) && Model() == DynamicInit(initialSize, true).value
    {
      data := new u8[initialSize](_ => 0);
      offset := 0;
    }

    /** `granted` says whether the system allocator supplies a larger block when one is needed. */
    method Malloc(size: u64, alignment: u64, granted: bool) returns (r: Result<nat, ArenaError>)
      requires Valid()
      modifies this, data
      ensures Valid()
      ensures var spec := DynamicMalloc(old(Model()), size, alignment, granted);
        match spec
        case Err(e) => r == Err(e) && Model() == old(Model())
        case Ok(g) => r == Ok(g.offset) && Model() == g.state
    {
      if alignment == 0 || !IsPow2(alignment) {
        return Err(AllocFailed);
      }
      var actual := ActualSize(size, alignment);
      var newOffset := offset + actual;
      if newOffset >= data.Length && !granted {
        return Err(GrowFailed);
      }
      var capacity := data.Length;
      if newOffset >= data.Length {
        capacity := Grow(data.Length, newOffset);
      }
      data := Place(data, offset, actual, capacity);
      r := Ok(offset);
      offset := newOffset;
    }

    method Reset()
      requires Valid()
      modifies this
      ensures Valid() && Model() == DynamicReset(old(Model()))
    {
      offset := 0;
    }
  }

  /** The padded size of `allocate`, computed with masks. */
  method MaskedActualSize(size: u64, alignment: u64) returns (actual: nat)
    requires alignment > 0 && IsPow2(alignment)
    ensures actual == ActualSize(size, alignment)
  {
    IsPow2Exactly(alignment);
    var mask := alignment - 1;
    BitAndMaskIsMod(size, alignment);
    var modulo := BitAnd(size, mask);
    BitAndMaskIsMod(alignment - modulo, alignment);
    var padding := BitAnd(alignment - modulo, mask);
    PaddingByRemainder(size, alignment, modulo, padding);
    actual := size + padding;
  }

  /** The padding is the remainder's complement, taken modulo the alignment. */
  lemma PaddingByRemainder(size: u64, alignment: u64, modulo: int, padding: int)
    requires alignment > 0 && modulo == size % alignment && padding == (alignment - modulo) % alignment
    ensures ActualSize(size, alignment) == size + padding
  {
    var m := size % alignment;
    if m == 0 {
      ModUnique(alignment, alignment, 1, 0);
    } else {
      ModUnique(alignment - m, alignment, 0, alignment - m);
    }
  }

  /** The growth loop of `malloc`: double the capacity until the new offset fits. */
  method Grow(length: nat, newOffset: nat) returns (capacity: nat)
    ensures capacity == GrowTarget(length, newOffset)
  {
    capacity := if length == 0 then 1 else 2 * length;
    while newOffset >= capacity
      invariant capacity >= 1
      invariant GrowTarget(length, newOffset) == GrownCapacity(capacity, newOffset)
      decreases newOffset + 1 - capacity
    {
      capacity := 2 * capacity;
    }
  }

  /** The `used` bytes in use followed by `actual` zeros, in `src` when its
      length is `capacity`, otherwise in a fresh array of that length. */
  method Place(src: array<u8>, used: nat, actual: nat, capacity: nat) returns (dst: array<u8>)
    requires used <= src.Length <= capacity && used + actual < capacity
    modifies src
    ensures dst.Length == capacity && dst[..used + actual] == old(src[..used]) + Zeros(actual)
    ensures dst == src || fresh(dst)
  {
    if capacity == src.Length {
      dst := src;
    } else {
      dst := new u8[capacity];
      CopyPrefix(src, dst, used);
    }
    Overwrite(dst, used, Zeros(actual));
    assert dst[..used + actual] == old(src[..used]) + Zeros(actual);
  }

  /** `memcpy` of the first `n` bytes of `src` into the fresh block `dst`. */
  method CopyPrefix(src: array<u8>, dst: array<u8>, n: nat)
    requires n <= src.Length && n <= dst.Length && src != dst
    modifies dst
    ensures dst[..n] == src[..n]
  {
    var i := 0;
    while i < n
      invariant 0 <= i <= n
      invariant forall k :: 0 <= k < i ==> dst[k] == src[k]
    {
      dst[i] := src[i];
      i := i + 1;
    }
  }
}
