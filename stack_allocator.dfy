/**
 * The stack allocator: a bump allocator over one buffer whose blocks carry an
 * 8-byte header holding the allocation count at the time they were made, so
 * that the most recent block (and only that one) can be released.
 */
module StackArena {
  import opened Machine
  import opened AllocUtil

  /** `sizeof(std::size_t)`: the header written in front of every block. */
  const HEADER_SIZE: nat := 8

  /** What `save` records: a flag, the allocation counter and `free_index`. */
  datatype SavedState = SavedState(saved: bool, counter: u64, freeIndex: nat)

  /** The allocator's state: its buffer, `free_index`, `allocation_counter` and saved state. */
  datatype Stack = Stack(buffer: seq<u8>, freeIndex: nat, counter: u64, savedState: SavedState)

  /** A state result together with the pointer an operation returned. */
  datatype Outcome = Outcome(state: Stack, ptr: Ptr)

  /** `free_index` and the saved `free_index` both lie within the buffer. */
  predicate Inv(s: Stack)
  {
    s.freeIndex <= |s.buffer| < U64_MODULUS && s.savedState.freeIndex <= |s.buffer|
  }

  /** `read_header`: the 8 bytes in front of the data start, read as a little-endian `std::size_t`. */
  function ReadHeader(s: Stack, data: int): u64
    requires HEADER_SIZE <= data <= |s.buffer|
  {
    Pow256Eight();
    DecodeLE(s.buffer[data - HEADER_SIZE..data])
  }

  /** `is_valid`: non-null, within `[buffer + header, buffer + free_index)`, header at most the counter. */
  predicate IsValid(s: Stack, p: Ptr)
    requires Inv(s)
  {
    p.At? && HEADER_SIZE <= p.offset < s.freeIndex && ReadHeader(s, p.offset) <= s.counter
  }

  /** `is_last_block`: the block's header equals the allocation counter. */
  predicate IsLastBlock(s: Stack, p: Ptr)
    requires Inv(s) && IsValid(s, p)
  {
    ReadHeader(s, p.offset) == s.counter
  }

  /** `aligned_alloc`. The engine never passes alignment 0, for which `size % alignment` is undefined. */
  function AlignedAlloc(s: Stack, alignment: u64, size: u64): (r: Outcome)
    requires Inv(s) && alignment != 0
    ensures Inv(r.state) && r.state.savedState == s.savedState
    ensures r.ptr.At? <==>
      AcceptedRequest(alignment, size) && s.freeIndex + HEADER_SIZE + size < |s.buffer|
    ensures r.ptr.Null? ==> r.state == s
  {
    if !IsPow2(alignment) || alignment % POINTER_SIZE != 0 || size == 0 || size % alignment != 0 then
      Outcome(s, Null)
    else
      var headerStart := s.freeIndex;
      var dataStart := headerStart + HEADER_SIZE;
      var dataEnd := dataStart + size;
      if dataEnd >= |s.buffer| then
        Outcome(s, Null)
      else
        var counter := Wrap64(s.counter + 1);
        var buffer := Splice(s.buffer, headerStart, EncodeLE(counter, HEADER_SIZE));
        Outcome(s.(buffer := buffer, freeIndex := dataEnd, counter := counter), At(dataStart))
  }

  /** `free`: only a valid pointer to the last block moves `free_index` back and decrements the counter. */
  function Free(s: Stack, p: Ptr): (r: Stack)
    requires Inv(s)
    ensures Inv(r) && r.buffer == s.buffer && r.savedState == s.savedState
    ensures r.freeIndex <= s.freeIndex
  {
    if !IsValid(s, p) then s
    else if !IsLastBlock(s, p) then s
    else s.(freeIndex := p.offset - HEADER_SIZE, counter := Wrap64(s.counter - 1))
  }

  /** `malloc`: size 0 is refused, otherwise the size is aligned up to the default alignment. */
  function Malloc(s: Stack, size: u64): (r: Outcome)
    requires Inv(s)
    ensures Inv(r.state) && r.state.savedState == s.savedState
    ensures size == 0 ==> r == Outcome(s, Null)
  {
    if size == 0 then Outcome(s, Null)
    else AlignedAlloc(s, DEFAULT_ALIGNMENT, AlignAllocSize(size, DEFAULT_ALIGNMENT))
  }

  /**
   * `calloc`: refuses a zero count or size; the product wraps as a `std::size_t`.
   * A block it returns is the new last block, starts just past the header at
   * the old `free_index`, ends at the new `free_index`, and holds only zeros.
   */
  function Calloc(s: Stack, num: u64, size: u64): (r: Outcome)
    requires Inv(s)
    ensures Inv(r.state) && r.state.savedState == s.savedState
    ensures num == 0 || size == 0 ==> r == Outcome(s, Null)
    ensures r.ptr.Null? ==> r.state == s
    ensures r.ptr.At? ==>
      r.ptr.offset == s.freeIndex + HEADER_SIZE
      && r.state.freeIndex == r.ptr.offset + AlignAllocSize(Wrap64(num * size), DEFAULT_ALIGNMENT)
      && r.state.freeIndex < |r.state.buffer|
      && r.state.counter == Wrap64(s.counter + 1)
      && IsValid(r.state, r.ptr) && IsLastBlock(r.state, r.ptr)
      && forall k :: r.ptr.offset <= k < r.state.freeIndex ==> r.state.buffer[k] == 0
  {
    if num == 0 || size == 0 then Outcome(s, Null)
    else
      var actual := AlignAllocSize(Wrap64(num * size), DEFAULT_ALIGNMENT);
      var o := AlignedAlloc(s, DEFAULT_ALIGNMENT, actual);
      if o.ptr.Null? then o
      else
        AllocatedBlockIsLast(s, DEFAULT_ALIGNMENT, actual);
        ZeroingKeepsHeader(o.state, o.ptr.offset, actual);
        Outcome(o.state.(buffer := Splice(o.state.buffer, o.ptr.offset, Zeros(actual))), o.ptr)
  }

  /**
   * `realloc` as the source writes it: the last block is resized in place by
   * moving `free_index`, with no check against the capacity; the new index is
   * the `std::size_t` sum of the block start and the aligned size.
   */
  function ReallocAsWritten(s: Stack, p: Ptr, newSize: u64): (r: Outcome)
    requires Inv(s)
    ensures p.Null? ==> r == Malloc(s, newSize)
    ensures p.At? && !IsValid(s, p) ==> r == Outcome(s, Null)
    ensures p.At? && IsValid(s, p) && IsLastBlock(s, p) ==>
      r.ptr == p && r.state == s.(freeIndex := Wrap64(p.offset + AlignAllocSize(newSize, DEFAULT_ALIGNMENT)))
    ensures p.At? && IsValid(s, p) && !IsLastBlock(s, p) ==>
      r == Malloc(s, AlignAllocSize(newSize, DEFAULT_ALIGNMENT))
  {
    if p.Null? then Malloc(s, newSize)
    else if !IsValid(s, p) then Outcome(s, Null)
    else if IsLastBlock(s, p) then
      Outcome(s.(freeIndex := Wrap64(p.offset + AlignAllocSize(newSize, DEFAULT_ALIGNMENT))), p)
    else Malloc(s, AlignAllocSize(newSize, DEFAULT_ALIGNMENT))
  }

  /**
   * `realloc` with the capacity check the in-place branch is missing: a last
   * block that would reach the end of the buffer is refused, as `aligned_alloc`
   * refuses it, and the state is unchanged.
   */
  function Realloc(s: Stack, p: Ptr, newSize: u64): (r: Outcome)
    requires Inv(s)
    ensures Inv(r.state) && r.state.savedState == s.savedState
    ensures p.Null? ==> r == Malloc(s, newSize)
    ensures p.At? && !IsValid(s, p) ==> r == Outcome(s, Null)
    ensures p.At? && IsValid(s, p) && IsLastBlock(s, p) ==>
      (r.ptr == p || r == Outcome(s, Null)) && r.state.counter == s.counter
    ensures p.At? && IsValid(s, p) && !IsLastBlock(s, p) ==>
      r == Malloc(s, AlignAllocSize(newSize, DEFAULT_ALIGNMENT))
  {
    if p.Null? then Malloc(s, newSize)
    else if !IsValid(s, p) then Outcome(s, Null)
    else
      var aligned := AlignAllocSize(newSize, DEFAULT_ALIGNMENT);
      if IsLastBlock(s, p) then
        if p.offset + aligned >= |s.buffer| then Outcome(s, Null)
        else Outcome(s.(freeIndex := p.offset + aligned), p)
      else Malloc(s, aligned)
  }

  /** `save`: records the counter and `free_index` and raises the flag. */
  function Save(s: Stack): (r: Stack)
    ensures r.savedState.saved && r.buffer == s.buffer
    ensures Inv(s) ==> Inv(r)
  {
    s.(savedState := SavedState(true, s.counter, s.freeIndex))
  }

  /** `restore`: after a `save`, puts the counter and `free_index` back and lowers the flag. */
  function Restore(s: Stack): (r: Stack)
    ensures !r.savedState.saved && r.buffer == s.buffer
    ensures Inv(s) ==> Inv(r)
  {
    if s.savedState.saved then
      s.(counter := s.savedState.counter, freeIndex := s.savedState.freeIndex,
         savedState := s.savedState.(saved := false))
    else s
  }

  /** Zeroing the data of a block leaves the header in front of it as it was. */
  lemma ZeroingKeepsHeader(s: Stack, at: nat, n: nat)
    requires HEADER_SIZE <= at && at + n <= |s.buffer|
    ensures var t := s.(buffer := Splice(s.buffer, at, Zeros(n)));
      ReadHeader(t, at) == ReadHeader(s, at)
      && forall k :: at <= k < at + n ==> t.buffer[k] == 0
  {
    var t := s.(buffer := Splice(s.buffer, at, Zeros(n)));
    assert t.buffer[at - HEADER_SIZE..at] == s.buffer[at - HEADER_SIZE..at];
  }

  lemma HeaderRoundTrip(s: Stack, at: nat, counter: u64)
    requires at + HEADER_SIZE <= |s.buffer|
    ensures var t := s.(buffer := Splice(s.buffer, at, EncodeLE(counter, HEADER_SIZE)));
      ReadHeader(t, at + HEADER_SIZE) == counter
  {
    var t := s.(buffer := Splice(s.buffer, at, EncodeLE(counter, HEADER_SIZE)));
    assert t.buffer[at..at + HEADER_SIZE] == EncodeLE(counter, HEADER_SIZE);
    Pow256Eight();
    DecodeEncodeLE(counter, HEADER_SIZE);
  }

  /** The state a successful allocation leaves behind. */
  lemma AllocShape(s: Stack, alignment: u64, size: u64)
    requires Inv(s) && alignment != 0
    requires AlignedAlloc(s, alignment, size).ptr.At?
    ensures AlignedAlloc(s, alignment, size) ==
      Outcome(s.(buffer := Splice(s.buffer, s.freeIndex, EncodeLE(Wrap64(s.counter + 1), HEADER_SIZE)),
                 freeIndex := s.freeIndex + HEADER_SIZE + size,
                 counter := Wrap64(s.counter + 1)),
              At(s.freeIndex + HEADER_SIZE))
  {
  }

  /**
   * A successful allocation returns a valid block that is the last block, lies
   * wholly in what was free space, and ends at the new `free_index`.
   */
  lemma AllocatedBlockIsLast(s: Stack, alignment: u64, size: u64)
    requires Inv(s) && alignment != 0
    requires AlignedAlloc(s, alignment, size).ptr.At?
    ensures var r := AlignedAlloc(s, alignment, size);
      IsValid(r.state, r.ptr) && IsLastBlock(r.state, r.ptr)
      && r.ptr.offset == s.freeIndex + HEADER_SIZE
      && r.state.freeIndex == r.ptr.offset + size < |s.buffer|
      && r.state.counter == Wrap64(s.counter + 1)
  {
    AllocShape(s, alignment, size);
    HeaderRoundTrip(s, s.freeIndex, Wrap64(s.counter + 1));
  }

  /** Releasing the block just allocated restores `free_index` and the counter. */
  lemma AllocThenFreeRestores(s: Stack, alignment: u64, size: u64)
    requires Inv(s) && alignment != 0
    requires AlignedAlloc(s, alignment, size).ptr.At?
    ensures var r := AlignedAlloc(s, alignment, size);
      var t := Free(r.state, r.ptr);
      t.freeIndex == s.freeIndex && t.counter == s.counter
  {
    var r := AlignedAlloc(s, alignment, size);
    AllocatedBlockIsLast(s, alignment, size);
    var st := r.state;
    assert IsValid(st, r.ptr) && IsLastBlock(st, r.ptr);
    assert Free(st, r.ptr) == st.(freeIndex := r.ptr.offset - HEADER_SIZE, counter := Wrap64(st.counter - 1));
    WrapIncDec(s.counter);
  }

  /** After a further allocation, an earlier last block is still valid but no longer released. */
  lemma FreeOfInnerBlockIgnored(s: Stack, alignment: u64, size: u64, p: Ptr)
    requires Inv(s) && alignment != 0 && IsValid(s, p) && IsLastBlock(s, p)
    requires AlignedAlloc(s, alignment, size).ptr.At?
    requires s.counter < U64_MODULUS - 1
    ensures var r := AlignedAlloc(s, alignment, size);
      IsValid(r.state, p) && Free(r.state, p) == r.state
  {
    var r := AlignedAlloc(s, alignment, size);
    AllocShape(s, alignment, size);
    HeaderBeforeSpliceKept(s, r.state, s.freeIndex, EncodeLE(Wrap64(s.counter + 1), HEADER_SIZE), p.offset);
    Wrap64Fits(s.counter + 1);
    assert !IsLastBlock(r.state, p);
  }

  /** Writing bytes at or after a header's end leaves the header as it was. */
  lemma HeaderBeforeSpliceKept(s: Stack, t: Stack, at: nat, bytes: seq<u8>, data: int)
    requires at + |bytes| <= |s.buffer| && t.buffer == Splice(s.buffer, at, bytes)
    requires HEADER_SIZE <= data <= at
    ensures ReadHeader(t, data) == ReadHeader(s, data)
  {
    assert t.buffer[data - HEADER_SIZE..data] == s.buffer[data - HEADER_SIZE..data];
  }

  /** `restore` after `save` brings back the saved counter and `free_index`, whatever happened between. */
  lemma RestoreAfterSave(s: Stack, t: Stack)
    requires t.savedState == Save(s).savedState
    ensures Restore(t).counter == s.counter && Restore(t).freeIndex == s.freeIndex
    ensures Restore(Restore(t)) == Restore(t)
  {
  }

  /**
   * The in-place branch of `realloc` ignores the capacity: growing the only
   * block of a 48-byte buffer to 64 bytes moves `free_index` to 88 and still
   * returns the block.
   */
  lemma ReallocOverrunsBuffer()
    ensures var s := Stack(EncodeLE(1, HEADER_SIZE) + Zeros(40), 24, 1, SavedState(false, 0, 0));
      var r := ReallocAsWritten(s, At(8), 64);
      r.ptr == At(8) && r.state.freeIndex == 88 > |s.buffer|
  {
    var s := Stack(EncodeLE(1, HEADER_SIZE) + Zeros(40), 24, 1, SavedState(false, 0, 0));
    assert s.buffer[0..8] == EncodeLE(1, HEADER_SIZE);
    Pow256Eight();
    DecodeEncodeLE(1, HEADER_SIZE);
    assert ReadHeader(s, 8) == 1;
    DefaultAlignmentIsPow2();
    AlignAllocSizeRoundsUp(64, DEFAULT_ALIGNMENT);
  }

  /** The corrected `realloc` keeps `free_index` inside the buffer and resizes the last block in place when it fits. */
  lemma ReallocInPlaceFits(s: Stack, p: Ptr, newSize: u64)
    requires Inv(s) && IsValid(s, p) && IsLastBlock(s, p)
    requires p.offset + AlignAllocSize(newSize, DEFAULT_ALIGNMENT) < |s.buffer|
    ensures Realloc(s, p, newSize) ==
      Outcome(s.(freeIndex := p.offset + AlignAllocSize(newSize, DEFAULT_ALIGNMENT)), p)
    ensures Realloc(s, p, newSize).state.freeIndex < |s.buffer|
  {
  }
}

/** The stack allocator as an object whose buffer, indices and counter change in place. */
module StackArenaClass {
  import opened Machine
  import opened AllocUtil
  import opened StackArena

  /** The allocator object: a fixed buffer whose indices and counter change in place. */
  class StackAllocator {
    const buffer: array<u8>
    var freeIndex: nat
    var counter: u64
    var savedState: SavedState

    function Model(): Stack
      reads this, buffer
    {
      Stack(buffer[..], freeIndex, counter, savedState)
    }

    /** `Inv` of the model, which depends only on the buffer's length. */
    predicate Valid()
      reads this
    {
      freeIndex <= buffer.Length < U64_MODULUS && savedState.freeIndex <= buffer.Length
    }

    /** The buffer holds `align_alloc_size(capacity)` bytes; the parent allocator is not modelled. */
    constructor(capacity: u64)
      ensures Valid() && fresh(buffer)
      ensures buffer.Length == AlignAllocSize(capacity, DEFAULT_ALIGNMENT)
      ensures freeIndex == 0 && counter == 0 && !savedState.saved
    {
      buffer := new u8[AlignAllocSize(capacity, DEFAULT_ALIGNMENT)];
      freeIndex := 0;
      counter := 0;
      savedState := SavedState(false, 0, 0);
    }

    method IsValidPtr(p: Ptr) returns (valid: bool)
      requires Valid()
      ensures valid == IsValid(Model(), p)
    {
      if p.Null? {
        return false;
      }
      if !(HEADER_SIZE <= p.offset < freeIndex) {
        return false;
      }
      var header := ReadHeaderAt(p.offset);
      valid := header <= counter;
    }

    method ReadHeaderAt(data: int) returns (header: u64)
      requires Valid() && HEADER_SIZE <= data <= buffer.Length
      ensures header == ReadHeader(Model(), data)
    {
      Pow256Eight();
      header := DecodeLE(buffer[data - HEADER_SIZE..data]);
    }

    method AlignedAlloc(alignment: u64, size: u64) returns (p: Ptr)
      requires Valid() && alignment != 0
      modifies this, buffer
      ensures Valid()
      ensures Outcome(Model(), p) == StackArena.AlignedAlloc(old(Model()), alignment, size)
    {
      if !IsPow2(alignment) || alignment % POINTER_SIZE != 0 || size == 0 || size % alignment != 0 {
        return Null;
      }
      var headerStart := freeIndex;
      var dataStart := headerStart + HEADER_SIZE;
      var dataEnd := dataStart + size;
      if dataEnd >= buffer.Length {
        return Null;
      }
      counter := Wrap64(counter + 1);
      freeIndex := dataEnd;
      Overwrite(buffer, headerStart, EncodeLE(counter, HEADER_SIZE));
      p := At(dataStart);
    }

    method Free(p: Ptr)
      requires Valid()
      modifies this
      ensures Valid() && Model() == StackArena.Free(old(Model()), p)
    {
      var valid := IsValidPtr(p);
      if !valid {
        return;
      }
      var header := ReadHeaderAt(p.offset);
      if header != counter {
        return;
      }
      freeIndex := p.offset - HEADER_SIZE;
      counter := Wrap64(counter - 1);
    }

    method Malloc(size: u64) returns (p: Ptr)
      requires Valid()
      modifies this, buffer
      ensures Valid() && Outcome(Model(), p) == StackArena.Malloc(old(Model()), size)
    {
      if size == 0 {
        return Null;
      }
      p := AlignedAlloc(DEFAULT_ALIGNMENT, AlignAllocSize(size, DEFAULT_ALIGNMENT));
    }

    method Calloc(num: u64, size: u64) returns (p: Ptr)
      requires Valid()
      modifies this, buffer
      ensures Valid() && Outcome(Model(), p) == StackArena.Calloc(old(Model()), num, size)
    {
      if num == 0 || size == 0 {
        return Null;
      }
      var actual := AlignAllocSize(Wrap64(num * size), DEFAULT_ALIGNMENT);
      p := AlignedAlloc(DEFAULT_ALIGNMENT, actual);
      if p.At? {
        Overwrite(buffer, p.offset, Zeros(actual));
      }
    }

    method Realloc(p: Ptr, newSize: u64) returns (q: Ptr)
      requires Valid()
      modifies this, buffer
      ensures Valid() && Outcome(Model(), q) == StackArena.Realloc(old(Model()), p, newSize)
    {
      if p.Null? {
        q := Malloc(newSize);
        return;
      }
      var valid := IsValidPtr(p);
      if !valid {
        return Null;
      }
      var aligned := AlignAllocSize(newSize, DEFAULT_ALIGNMENT);
      var header := ReadHeaderAt(p.offset);
      if header == counter {
        if p.offset + aligned >= buffer.Length {
          return Null;
        }
        freeIndex := p.offset + aligned;
        q := p;
      } else {
        q := Malloc(aligned);
      }
    }

    method Save()
      requires Valid()
      modifies this
      ensures Valid() && Model() == StackArena.Save(old(Model()))
    {
      savedState := SavedState(true, counter, freeIndex);
    }

    method Restore()
      requires Valid()
      modifies this
      ensures Valid() && Model() == StackArena.Restore(old(Model()))
    {
      if savedState.saved {
        counter := savedState.counter;
        freeIndex := savedState.freeIndex;
        savedState := savedState.(saved := false);
      }
    }
  }
}
