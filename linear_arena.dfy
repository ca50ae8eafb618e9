/**
 * The linear (bump) arenas: `free_index` only moves forward until the arena is
 * reset or a saved index is restored. Three variants share this model and
 * differ in which argument checks run outside debug builds and in how their
 * state is saved, as `Policy` records.
 */
module BumpArena {
  import opened Machine
  import opened AllocUtil

  /**
   * `debug`: built with SURGE_DEBUG_MEMORY (argument checks and an allocation counter);
   * `argumentChecksAlways`: the alignment and size checks of `aligned_alloc` run in every build;
   * `zeroChecksAlways`: `malloc`/`calloc` refuse zero sizes in every build.
   */
  datatype Policy = Policy(debug: bool, argumentChecksAlways: bool, zeroChecksAlways: bool)

  /** source/allocators/linear_arena_allocator.cpp */
  function LinearArenaPolicy(debug: bool): Policy { Policy(debug, false, true) }
  /** include/linear_arena_allocator.hpp and source/linear_arena_allocator.cpp */
  function TemplateArenaPolicy(debug: bool): Policy { Policy(debug, false, false) }
  /** include/allocators/static_arena_allocator.hpp */
  function StaticArenaPolicy(debug: bool): Policy { Policy(debug, true, true) }

  /** What a save records: a flag (unused by the static arena), the counter and `free_index`. */
  datatype SavedState = SavedState(saved: bool, counter: u64, freeIndex: nat)

  datatype Arena = Arena(buffer: seq<u8>, freeIndex: nat, counter: u64, savedState: SavedState)

  datatype Outcome = Outcome(state: Arena, ptr: Ptr)

  predicate Inv(a: Arena)
  {
    a.freeIndex <= |a.buffer|
  }

  predicate ChecksArguments(p: Policy) { p.debug || p.argumentChecksAlways }
  predicate ChecksZero(p: Policy) { p.debug || p.zeroChecksAlways }

  /** `aligned_alloc`: the old `free_index` is returned and bumped by `size`, unless that reaches the capacity. */
  function AlignedAlloc(p: Policy, a: Arena, alignment: u64, size: u64): (r: Outcome)
    requires Inv(a) && (ChecksArguments(p) ==> alignment != 0)
    ensures Inv(r.state) && r.state.buffer == a.buffer && r.state.savedState == a.savedState
    ensures r.ptr.At? <==>
      (ChecksArguments(p) ==> AcceptedRequest(alignment, size)) && a.freeIndex + size < |a.buffer|
    ensures r.ptr.At? ==> r.ptr.offset == a.freeIndex && r.state.freeIndex == a.freeIndex + size
    ensures r.ptr.Null? ==> r.state == a
  {
    if ChecksArguments(p)
       && (!IsPow2(alignment) || alignment % POINTER_SIZE != 0 || size == 0 || size % alignment != 0)
    then Outcome(a, Null)
    else if a.freeIndex + size >= |a.buffer| then Outcome(a, Null)
    else
      var counter := if p.debug then Wrap64(a.counter + 1) else a.counter;
      Outcome(a.(freeIndex := a.freeIndex + size, counter := counter), At(a.freeIndex))
  }

  /** `malloc`: the size is aligned up to the default alignment. */
  function Malloc(p: Policy, a: Arena, size: u64): (r: Outcome)
    requires Inv(a)
    ensures Inv(r.state) && r.state.buffer == a.buffer && r.state.savedState == a.savedState
    ensures ChecksZero(p) && size == 0 ==> r == Outcome(a, Null)
    ensures r.ptr.At? ==> r.ptr.offset == a.freeIndex
  {
    if ChecksZero(p) && size == 0 then Outcome(a, Null)
    else AlignedAlloc(p, a, DEFAULT_ALIGNMENT, AlignAllocSize(size, DEFAULT_ALIGNMENT))
  }

  /** The block `calloc` asks for: the wrapped product aligned up to the default alignment. */
  function CallocSize(num: u64, size: u64): u64
  {
    AlignAllocSize(Wrap64(num * size), DEFAULT_ALIGNMENT)
  }

  /** Without overflow, the block `calloc` asks for covers `num * size` and is a multiple of the default alignment. */
  lemma CallocSizeCovers(num: u64, size: u64)
    requires num * size + DEFAULT_ALIGNMENT < U64_MODULUS
    ensures CallocSize(num, size) >= num * size && CallocSize(num, size) % DEFAULT_ALIGNMENT == 0
  {
    var product := num * size;
    assert Wrap64(product) == product;
    AlignAllocSizeRoundsUp(product, DEFAULT_ALIGNMENT);
  }

  /** `calloc`: as `malloc` of the wrapped product, with the whole aligned block zeroed. */
  function Calloc(p: Policy, a: Arena, num: u64, size: u64): (r: Outcome)
    requires Inv(a)
    ensures Inv(r.state) && |r.state.buffer| == |a.buffer| && r.state.savedState == a.savedState
    ensures ChecksZero(p) && (num == 0 || size == 0) ==> r == Outcome(a, Null)
  {
    if ChecksZero(p) && (num == 0 || size == 0) then Outcome(a, Null)
    else
      var actual := CallocSize(num, size);
      var o := AlignedAlloc(p, a, DEFAULT_ALIGNMENT, actual);
      if o.ptr.Null? then o
      else Outcome(o.state.(buffer := Splice(o.state.buffer, o.ptr.offset, Zeros(actual))), o.ptr)
  }

  /** `free`: an arena cannot release one block; a debug build only decrements its counter. */
  function Free(p: Policy, a: Arena): (r: Arena)
    ensures r.buffer == a.buffer && r.freeIndex == a.freeIndex && r.savedState == a.savedState
    ensures !p.debug ==> r == a
  {
    if p.debug then a.(counter := Wrap64(a.counter - 1)) else a
  }

  /** `realloc`: `free` then `malloc`; the old data is never copied. */
  function Realloc(p: Policy, a: Arena, newSize: u64): (r: Outcome)
    requires Inv(a)
    ensures Inv(r.state) && r.state.buffer == a.buffer
    ensures r.ptr.At? ==> r.ptr.offset == a.freeIndex
  {
    Malloc(p, Free(p, a), newSize)
  }

  /** `reset`: `free_index` and the counter go back to 0. */
  function Reset(a: Arena): (r: Arena)
    ensures Inv(r) && r.freeIndex == 0 && r.counter == 0 && r.buffer == a.buffer
  {
    a.(freeIndex := 0, counter := 0)
  }

  /** `save` of the linear arena: raises the flag and records the counter and `free_index`. */
  function Save(a: Arena): (r: Arena)
    ensures r.savedState.saved && r.freeIndex == a.freeIndex && r.buffer == a.buffer
  {
    a.(savedState := SavedState(true, a.counter, a.freeIndex))
  }

  /** `restore` of the linear arena: acts only after `save`, then lowers the flag. */
  function Restore(a: Arena): (r: Arena)
    ensures !r.savedState.saved && r.buffer == a.buffer
    ensures !a.savedState.saved ==> r == a
  {
    if a.savedState.saved then
      a.(counter := a.savedState.counter, freeIndex := a.savedState.freeIndex,
         savedState := a.savedState.(saved := false))
    else a
  }

  /** `save` of the static arena: a value; outside debug builds the counter recorded is 0. */
  function StaticSave(p: Policy, a: Arena): (r: SavedState)
    ensures r.freeIndex == a.freeIndex
    ensures r.counter == (if p.debug then a.counter else 0)
  {
    if p.debug then SavedState(false, a.counter, a.freeIndex) else SavedState(false, 0, a.freeIndex)
  }

  /** `restore` of the static arena: `free_index` always, the counter only in debug builds. */
  function StaticRestore(p: Policy, a: Arena, saved: SavedState): (r: Arena)
    ensures r.freeIndex == saved.freeIndex && r.buffer == a.buffer
    ensures r.counter == (if p.debug then saved.counter else a.counter)
  {
    var counter := if p.debug then saved.counter else a.counter;
    a.(counter := counter, freeIndex := saved.freeIndex)
  }

  /** Two successive allocations are contiguous and do not overlap. */
  lemma SuccessiveBlocksAreDisjoint(p: Policy, a: Arena, al1: u64, size1: u64, al2: u64, size2: u64)
    requires Inv(a) && (ChecksArguments(p) ==> al1 != 0 && al2 != 0)
    requires AlignedAlloc(p, a, al1, size1).ptr.At?
    requires AlignedAlloc(p, AlignedAlloc(p, a, al1, size1).state, al2, size2).ptr.At?
    ensures var r1 := AlignedAlloc(p, a, al1, size1);
      var r2 := AlignedAlloc(p, r1.state, al2, size2);
      r1.ptr.offset + size1 == r2.ptr.offset && r2.ptr.offset + size2 < |a.buffer|
  {
  }

  /** `restore(save())` on the linear arena brings back the index and counter of the save. */
  lemma RestoreAfterSave(a: Arena, b: Arena)
    requires b.savedState == Save(a).savedState
    ensures Restore(b).freeIndex == a.freeIndex && Restore(b).counter == a.counter
    ensures Restore(Restore(b)) == Restore(b)
  {
  }

  /** On the static arena, restoring a saved value brings back `free_index`; outside debug builds the counter is untouched. */
  lemma StaticRestoreOfSave(p: Policy, a: Arena, b: Arena)
    ensures StaticRestore(p, b, StaticSave(p, a)).freeIndex == a.freeIndex
    ensures p.debug ==> StaticRestore(p, b, StaticSave(p, a)).counter == a.counter
    ensures !p.debug ==> StaticRestore(p, b, StaticSave(p, a)).counter == b.counter
  {
  }

  /** After a successful `calloc`, every byte of the block it asked for is zero. */
  lemma CallocZeroes(p: Policy, a: Arena, num: u64, size: u64)
    requires Inv(a) && Calloc(p, a, num, size).ptr.At?
    ensures var r := Calloc(p, a, num, size);
      r.ptr.offset + CallocSize(num, size) <= |r.state.buffer|
      && forall k :: r.ptr.offset <= k < r.ptr.offset + CallocSize(num, size) ==> r.state.buffer[k] == 0
  {
    var n := CallocSize(num, size);
    var o := AlignedAlloc(p, a, DEFAULT_ALIGNMENT, n);
    var zeroed := Splice(o.state.buffer, o.ptr.offset, Zeros(n));
    assert Calloc(p, a, num, size) == Outcome(o.state.(buffer := zeroed), o.ptr);
  }
}

/** The linear arenas as objects whose index and counter change in place. */
module BumpArenaClass {
  import opened Machine
  import opened AllocUtil
  import opened BumpArena

  class LinearArena {
    const policy: Policy
    const buffer: array<u8>
    var freeIndex: nat
    var counter: u64
    var savedState: SavedState

    function Model(): Arena
      reads this, buffer
    {
      Arena(buffer[..], freeIndex, counter, savedState)
    }

    /** The arena's invariant, and a recorded `free_index` within the buffer, as every `save` records it. */
    predicate Valid()
      reads this, buffer
    {
      Inv(Model()) && savedState.freeIndex <= buffer.Length
    }

    /** A heap-backed arena: its capacity is the requested one aligned up to the default alignment. */
    constructor (p: Policy, requested: u64)
      ensures Valid() && fresh(buffer) && policy == p
      ensures buffer.Length == AlignAllocSize(requested, DEFAULT_ALIGNMENT)
      ensures freeIndex == 0 && counter == 0 && !savedState.saved
    {
      policy := p;
      buffer := new u8[AlignAllocSize(requested, DEFAULT_ALIGNMENT)];
      freeIndex := 0;
      counter := 0;
      savedState := SavedState(false, 0, 0);
    }

    /** A static arena: a zero-initialised buffer of exactly the template capacity. */
    constructor Static(p: Policy, capacity: nat)
      ensures Valid() && fresh(buffer) && policy == p
      ensures buffer.Length == capacity && forall k :: 0 <= k < capacity ==> buffer[k] == 0
      ensures freeIndex == 0 && counter == 0
    {
      policy := p;
      buffer := new u8[capacity](_ => 0);
      freeIndex := 0;
      counter := 0;
      savedState := SavedState(false, 0, 0);
    }

    method AlignedAlloc(alignment: u64, size: u64) returns (ptr: Ptr)
      requires Valid() && (ChecksArguments(policy) ==> alignment != 0)
      modifies this
      ensures Valid() && Outcome(Model(), ptr) == BumpArena.AlignedAlloc(policy, old(Model()), alignment, size)
    {
      if ChecksArguments(policy)
         && (!IsPow2(alignment) || alignment % POINTER_SIZE != 0 || size == 0 || size % alignment != 0) {
        return Null;
      }
      var bumped := freeIndex + size;
      if bumped >= buffer.Length {
        return Null;
      }
      ptr := At(freeIndex);
      freeIndex := bumped;
      if policy.debug {
        counter := Wrap64(counter + 1);
      }
    }

    method Malloc(size: u64) returns (ptr: Ptr)
      requires Valid()
      modifies this
      ensures Valid() && Outcome(Model(), ptr) == BumpArena.Malloc(policy, old(Model()), size)
    {
      if ChecksZero(policy) && size == 0 {
        return Null;
      }
      ptr := AlignedAlloc(DEFAULT_ALIGNMENT, AlignAllocSize(size, DEFAULT_ALIGNMENT));
    }

    method Calloc(num: u64, size: u64) returns (ptr: Ptr)
      requires Valid()
      modifies this, buffer
      ensures Valid() && Outcome(Model(), ptr) == BumpArena.Calloc(policy, old(Model()), num, size)
    {
      if ChecksZero(policy) && (num == 0 || size == 0) {
        return Null;
      }
      var actual := CallocSize(num, size);
      ptr := AlignedAlloc(DEFAULT_ALIGNMENT, actual);
      if ptr.At? {
        Overwrite(buffer, ptr.offset, Zeros(actual));
      }
    }

    method Free(ptr: Ptr)
      modifies this
      ensures Model() == BumpArena.Free(policy, old(Model()))
    {
      if policy.debug {
        counter := Wrap64(counter - 1);
      }
    }

    method Realloc(ptr: Ptr, newSize: u64) returns (newPtr: Ptr)
      requires Valid()
      modifies this
      ensures Valid() && Outcome(Model(), newPtr) == BumpArena.Realloc(policy, old(Model()), newSize)
    {
      Free(ptr);
      newPtr := Malloc(newSize);
    }

    method Reset()
      requires Valid()
      modifies this
      ensures Valid() && Model() == BumpArena.Reset(old(Model()))
    {
      freeIndex := 0;
      counter := 0;
    }

    method Save()
      requires Valid()
      modifies this
      ensures Valid() && Model() == BumpArena.Save(old(Model()))
    {
      savedState := SavedState(true, counter, freeIndex);
    }

    method Restore()
      requires Valid()
      modifies this
      ensures Valid() && Model() == BumpArena.Restore(old(Model()))
    {
      if savedState.saved {
        counter := savedState.counter;
        freeIndex := savedState.freeIndex;
        savedState := savedState.(saved := false);
      }
    }

    method StaticSave() returns (saved: SavedState)
      ensures saved == BumpArena.StaticSave(policy, Model())
    {
      if policy.debug {
        saved := SavedState(false, counter, freeIndex);
      } else {
        saved := SavedState(false, 0, freeIndex);
      }
    }

    /** The saved index must come from this arena's own `save`. */
    method StaticRestore(saved: SavedState)
      requires Valid() && saved.freeIndex <= buffer.Length
      modifies this
      ensures Valid() && Model() == BumpArena.StaticRestore(policy, old(Model()), saved)
    {
      if policy.debug {
        counter := saved.counter;
      }
      freeIndex := saved.freeIndex;
    }
  }
}
