/**
 * The allocator helpers shared by every arena: `is_pow_2`, `align_alloc_size`,
 * the request an STL adaptor forwards, and in-place byte copies into a buffer.
 */
module AllocUtil {
  import opened Machine

  /** `sizeof(void*)` on the 64-bit targets the engine supports. */
  const POINTER_SIZE: nat := 8
  /** `alignof(std::max_align_t)` on those targets. */
  const DEFAULT_ALIGNMENT: nat := 16

  /** A pointer an allocator hands out: null, or an offset from the start of its buffer. */
  datatype Ptr = Null | At(offset: int)

  /** `is_pow_2`: `(x & (x - 1)) == 0` over `std::size_t`, where `0 - 1` wraps around. */
  function IsPow2(x: u64): bool
  {
    BitAnd(x, Wrap64(x - 1)) == 0
  }

  /** The test accepts exactly the powers of two, and also 0. */
  lemma IsPow2Exactly(x: u64)
    ensures IsPow2(x) <==> x == 0 || IsPowerOfTwo(x)
  {
    if x >= 1 {
      BitAndPredecessor(x);
    }
  }

  lemma DefaultAlignmentIsPow2()
    ensures IsPowerOfTwo(DEFAULT_ALIGNMENT) && IsPow2(DEFAULT_ALIGNMENT)
  {
    assert IsPowerOfTwo(2);
    assert IsPowerOfTwo(4);
    assert IsPowerOfTwo(8);
    IsPow2Exactly(DEFAULT_ALIGNMENT);
  }

  /** The remainder `align_alloc_size` computes: a bit mask for powers of two, `%` otherwise. */
  function AlignmentRemainder(intended: u64, alignment: u64): u64
  {
    if IsPow2(alignment) then BitAnd(intended, Wrap64(alignment - 1))
    else intended % alignment
  }

  /** `align_alloc_size`: `intended + (alignment - remainder)` in `std::size_t` arithmetic. */
  function AlignAllocSize(intended: u64, alignment: u64): u64
  {
    Wrap64(intended + Wrap64(alignment - AlignmentRemainder(intended, alignment)))
  }

  lemma AlignmentRemainderIsMod(intended: u64, alignment: u64)
    requires alignment > 0
    ensures AlignmentRemainder(intended, alignment) == intended % alignment
  {
    if IsPow2(alignment) {
      assert Wrap64(alignment - 1) == alignment - 1;
      IsPow2Exactly(alignment);
      BitAndMaskIsMod(intended, alignment);
    }
  }

  /**
   * Without overflow, the aligned size is the next multiple of the alignment
   * strictly above `intended`: a full alignment is added to a size that is
   * already aligned.
   */
  lemma AlignAllocSizeRoundsUp(intended: u64, alignment: u64)
    requires alignment > 0 && intended + alignment < U64_MODULUS
    ensures AlignAllocSize(intended, alignment) % alignment == 0
    ensures intended < AlignAllocSize(intended, alignment) <= intended + alignment
    ensures intended % alignment == 0 ==> AlignAllocSize(intended, alignment) == intended + alignment
  {
    AlignAllocSizeFits(intended, alignment);
    NextMultiple(intended, alignment);
  }

  /** Without overflow, neither wrap in `align_alloc_size` takes effect. */
  lemma AlignAllocSizeFits(intended: u64, alignment: u64)
    requires alignment > 0 && intended + alignment < U64_MODULUS
    ensures AlignAllocSize(intended, alignment) == intended + (alignment - intended % alignment)
  {
    AlignmentRemainderIsMod(intended, alignment);
    var m := intended % alignment;
    var inner := Wrap64(alignment - AlignmentRemainder(intended, alignment));
    Wrap64Fits(alignment - m);
    assert inner == alignment - m;
    Wrap64Fits(intended + inner);
  }

  /** Adding what is missing to the next multiple gives a multiple. */
  lemma NextMultiple(x: nat, a: nat)
    requires a > 0
    ensures (x + (a - x % a)) % a == 0
  {
    var q := x / a;
    assert x + (a - x % a) == a * (q + 1) + 0;
    ModUnique(x + (a - x % a), a, q + 1, 0);
  }

  lemma {:induction false} PowerOfTwoMultipleOfPointer(a: nat)
    requires IsPowerOfTwo(a) && a >= POINTER_SIZE
    ensures a % POINTER_SIZE == 0
    decreases a
  {
    if a / 2 >= POINTER_SIZE {
      PowerOfTwoMultipleOfPointer(a / 2);
    } else {
      var h := a / 2;
      assert h == 4 || h == 5 || h == 6 || h == 7;
    }
  }

  /** The alignment and size `stl_allocator::allocate` passes to `aligned_alloc`. */
  datatype Request = Request(alignment: u64, size: u64)

  /** The alignment `stl_allocator<T>` uses: `max(alignof(T), sizeof(void*))`. */
  function StlAlignment(alignOfT: u64): u64
  {
    if alignOfT < POINTER_SIZE then POINTER_SIZE else alignOfT
  }

  /** `stl_allocator<T>::allocate(n)`: that alignment, and `n * sizeof(T)` aligned up to it. */
  function StlAllocateRequest(n: u64, sizeOfT: nat, alignOfT: u64): Request
  {
    var alignment := StlAlignment(alignOfT);
    Request(alignment, AlignAllocSize(Wrap64(n * sizeOfT), alignment))
  }

  lemma StlAlignmentValid(alignOfT: u64)
    requires IsPowerOfTwo(alignOfT)
    ensures IsPowerOfTwo(StlAlignment(alignOfT)) && StlAlignment(alignOfT) % POINTER_SIZE == 0
  {
    if alignOfT < POINTER_SIZE {
      assert IsPowerOfTwo(2) && IsPowerOfTwo(4);
    } else {
      PowerOfTwoMultipleOfPointer(alignOfT);
    }
  }

  /** The test every `aligned_alloc` of the engine applies to its arguments. */
  predicate AcceptedRequest(alignment: u64, size: u64)
  {
    IsPow2(alignment) && alignment % POINTER_SIZE == 0 && size != 0 && alignment != 0
    && size % alignment == 0
  }

  /** Any aligned size passes the argument checks when the alignment is a power-of-two multiple of a pointer. */
  lemma AlignedSizeAccepted(intended: u64, alignment: u64)
    requires IsPowerOfTwo(alignment) && alignment % POINTER_SIZE == 0
    requires intended + alignment < U64_MODULUS
    ensures AcceptedRequest(alignment, AlignAllocSize(intended, alignment))
    ensures AlignAllocSize(intended, alignment) > intended
  {
    IsPow2Exactly(alignment);
    AlignAllocSizeRoundsUp(intended, alignment);
  }

  /**
   * For any type (whose alignment C++ makes a power of two) and any element
   * count without overflow, the adaptor's request passes the argument checks
   * and covers the `n` elements.
   */
  lemma StlRequestAccepted(n: u64, sizeOfT: nat, alignOfT: u64)
    requires IsPowerOfTwo(alignOfT)
    requires n * sizeOfT + alignOfT + POINTER_SIZE < U64_MODULUS
    ensures var r := StlAllocateRequest(n, sizeOfT, alignOfT);
      AcceptedRequest(r.alignment, r.size) && r.alignment >= POINTER_SIZE && r.size > n * sizeOfT
  {
    StlAlignmentValid(alignOfT);
    var intended := n * sizeOfT;
    MulMonotone(0, n, sizeOfT);
    Wrap64Fits(intended);
    AlignedSizeAccepted(intended, StlAlignment(alignOfT));
  }

  /** `s` with `bytes` written over it from index `at` on. */
  function Splice(s: seq<u8>, at: nat, bytes: seq<u8>): (r: seq<u8>)
    requires at + |bytes| <= |s|
    ensures |r| == |s|
    ensures forall k :: 0 <= k < |s| ==> r[k] == if at <= k < at + |bytes| then bytes[k - at] else s[k]
  {
    s[..at] + bytes + s[at + |bytes|..]
  }

  function Zeros(n: nat): (r: seq<u8>)
    ensures |r| == n && forall k :: 0 <= k < n ==> r[k] == 0
  {
    seq(n, _ => 0)
  }

  /** `memcpy`/`memset` into a buffer: copies `bytes` to `a[at..]`, one byte at a time. */
  method Overwrite(a: array<u8>, at: nat, bytes: seq<u8>)
    requires at + |bytes| <= a.Length
    modifies a
    ensures a[..] == Splice(old(a[..]), at, bytes)
  {
    var i := 0;
    while i < |bytes|
      invariant 0 <= i <= |bytes|
      invariant forall k :: 0 <= k < a.Length ==>
        a[k] == if at <= k < at + i then bytes[k - at] else old(a[k])
    {
      a[at + i] := bytes[i];
      i := i + 1;
    }
    assert a[..] == Splice(old(a[..]), at, bytes);
  }
}
