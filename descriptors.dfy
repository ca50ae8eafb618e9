/**
 * The Vulkan descriptor helpers of core/src/sc_vulkan/atoms/descriptor.cpp
 * and core/src/sc_vulkan/renderer_vk_descriptor.cpp: a growable allocator
 * that hands out descriptor sets from a list of ready pools, moving a pool
 * that runs out to a list of full pools and retrying once; a writer that
 * collects descriptor writes; and a layout builder that collects bindings.
 *
 * The device is not modelled: the handle a pool creation returns (or its
 * failure), and what each set allocation reports, are inputs of the
 * operations. The two files differ in how the pool size grows (doubling
 * up to the allocator's own maximum, or by half up to 4092) and in whether
 * pool creation can fail; `Growth` selects the first, and the atoms' pool
 * creation is always passed a handle.
 */
module Descriptors {
  import opened Machine
  import opened Wrappers

  type PoolHandle = u64
  type SetHandle = u64
  type LayoutHandle = u64

  const NULL_HANDLE: u64 := 0

  /** The renderer allocator's cap on sets per pool. */
  const RENDERER_MAX_SETS_PER_POOL: u32 := 4092

  datatype PoolRatio = PoolRatio(descriptorType: u32, ratio: real)
  datatype PoolSize = PoolSize(descriptorType: u32, descriptorCount: int)

  /** How `sets_per_pool` grows after a pool is created. */
  datatype Growth =
    | Doubling(maxSetsPerPool: u32)   // descriptor.cpp
    | ByHalf                          // renderer_vk_descriptor.cpp

  datatype Error = PoolCreationFailed | SetAllocFailed | LayoutBuildFailed

  /** What one set allocation on the device reports. */
  datatype AllocOutcome =
    | Allocated(handle: SetHandle)
    | OutOfPoolMemory
    | FragmentedPool
    | OtherFailure(code: int)

  datatype PoolLists = PoolLists(
    ready: seq<PoolHandle>,
    full: seq<PoolHandle>,
    setsPerPool: u32,
    ratios: seq<PoolRatio>,
    growth: Growth)

  /** Every pool the allocator holds, ready or full. */
  function Owned(p: PoolLists): multiset<PoolHandle>
  {
    multiset(p.ready) + multiset(p.full)
  }

  /** A float-to-unsigned conversion: toward zero. */
  function Truncate(x: real): int
  {
    if x >= 0.0 then x.Floor else -((-x).Floor)
  }

  /** create_pool's pool sizes: one per ratio, the ratio times the set
      count, truncated. */
  function PoolSizes(ratios: seq<PoolRatio>, setCount: u32): (sizes: seq<PoolSize>)
  {
    seq(|ratios|, k requires 0 <= k < |ratios| => SizeFor(ratios[k], setCount))
  }

  function SizeFor(r: PoolRatio, setCount: u32): PoolSize
  {
    PoolSize(r.descriptorType, Truncate(r.ratio * setCount as real))
  }

  /** Each pool size is of its ratio's type, and for a non-negative ratio
      it is the largest whole count not above ratio times set count. */
  lemma PoolSizesFollowRatios(ratios: seq<PoolRatio>, setCount: u32)
    ensures |PoolSizes(ratios, setCount)| == |ratios|
    ensures forall k :: 0 <= k < |ratios| ==>
      && PoolSizes(ratios, setCount)[k].descriptorType == ratios[k].descriptorType
      && (ratios[k].ratio >= 0.0 ==>
            && PoolSizes(ratios, setCount)[k].descriptorCount as real <= ratios[k].ratio * setCount as real
            && ratios[k].ratio * setCount as real < PoolSizes(ratios, setCount)[k].descriptorCount as real + 1.0)
  {
    forall k | 0 <= k < |ratios| && ratios[k].ratio >= 0.0
      ensures PoolSizes(ratios, setCount)[k].descriptorCount as real <= ratios[k].ratio * setCount as real
      ensures ratios[k].ratio * setCount as real < PoolSizes(ratios, setCount)[k].descriptorCount as real + 1.0
    {
      assert PoolSizes(ratios, setCount)[k] == SizeFor(ratios[k], setCount);
      TruncateOfNonNegative(ratios[k].ratio, setCount as real);
    }
  }

  lemma TruncateOfNonNegative(r: real, n: real)
    requires r >= 0.0 && n >= 0.0
    ensures Truncate(r * n) as real <= r * n < Truncate(r * n) as real + 1.0
  {
    assert r * n >= 0.0;
  }

  /** The pool size after a creation: doubled and capped at the maximum,
      or grown by half and capped at 4092, in 32-bit arithmetic. */
  function Grow(g: Growth, s: u32): u32
  {
    match g
    case Doubling(m) => var d := Wrap32(2 * s); if d > m then m else d
    case ByHalf => var h := Wrap32(s + s / 2); if h > RENDERER_MAX_SETS_PER_POOL then RENDERER_MAX_SETS_PER_POOL else h
  }

  function Cap(g: Growth): u32
  {
    match g
    case Doubling(m) => m
    case ByHalf => RENDERER_MAX_SETS_PER_POOL
  }

  /** The pool size never passes its cap, and below the cap it grows to
      twice (or one and a half times) the old size, or to the cap. */
  lemma GrowthIsCapped(g: Growth, s: u32)
    ensures Grow(g, s) <= Cap(g)
    ensures g.Doubling? && 2 * s < U32_MODULUS ==>
      Grow(g, s) == if 2 * s > Cap(g) then Cap(g) else 2 * s
    ensures g.ByHalf? && s <= Cap(g) ==>
      Grow(g, s) == if s + s / 2 > Cap(g) then Cap(g) else s + s / 2
    ensures s <= Cap(g) && (g.ByHalf? || 2 * s < U32_MODULUS) ==> s <= Grow(g, s)
  {
  }

  /** get_pool: the last ready pool, popped; with none ready, the newly
      created pool, after which the pool size grows. A creation failure
      is returned with the lists unchanged. */
  function GetPool(p: PoolLists, created: Result<PoolHandle, Error>): (r: Result<(PoolHandle, PoolLists), Error>)
  {
    if |p.ready| != 0 then Ok((p.ready[|p.ready| - 1], p.(ready := p.ready[..|p.ready| - 1])))
    else if created.Err? then Err(created.error)
    else Ok((created.value, p.(setsPerPool := Grow(p.growth, p.setsPerPool))))
  }

  /** A pool taken from the ready list is its last one, and putting it back
      restores the lists; a created pool is the new one, and only then
      does the size grow. */
  lemma GetPoolTakesLastOrCreates(p: PoolLists, created: Result<PoolHandle, Error>)
    ensures GetPool(p, created).Err? <==> |p.ready| == 0 && created.Err?
    ensures GetPool(p, created).Ok? ==>
      var (h, q) := GetPool(p, created).value;
      && q.full == p.full && q.ratios == p.ratios && q.growth == p.growth
      && Owned(q) + multiset{h} == Owned(p) + (if |p.ready| == 0 then multiset{created.value} else multiset{})
      && (|p.ready| != 0 ==> q.ready + [h] == p.ready && q.setsPerPool == p.setsPerPool)
      && (|p.ready| == 0 ==> h == created.value && q.ready == [] && q.setsPerPool == Grow(p.growth, p.setsPerPool))
  {
    if |p.ready| != 0 {
      var n := |p.ready| - 1;
      assert p.ready[..n] + [p.ready[n]] == p.ready;
    }
  }

  /** Only these two outcomes make the allocator move on to another pool. */
  predicate Retryable(o: AllocOutcome)
  {
    o == OutOfPoolMemory || o == FragmentedPool
  }

  /** allocate as written: a first attempt that fails for any other reason
      than a full or fragmented pool is returned as an allocated null set,
      and a failed retry drops the second pool from both lists. */
  function AllocateAsWritten(p: PoolLists, created1: Result<PoolHandle, Error>, first: AllocOutcome,
                             created2: Result<PoolHandle, Error>, second: AllocOutcome)
    : (r: (Result<SetHandle, Error>, PoolLists))
  {
    match GetPool(p, created1)
    case Err(e) => (Err(e), p)
    case Ok((pool, q)) =>
      if Retryable(first) then
        var q1 := q.(full := q.full + [pool]);
        match GetPool(q1, created2)
        case Err(e) => (Err(e), q1)
        case Ok((pool2, q2)) =>
          if second.Allocated? then (Ok(second.handle), q2.(ready := q2.ready + [pool2]))
          else (Err(SetAllocFailed), q2)
      else
        (Ok(if first.Allocated? then first.handle else NULL_HANDLE), q.(ready := q.ready + [pool]))
  }

  /** A device failure other than a full pool is reported as a successful
      allocation of the null set. */
  lemma AllocateAsWrittenReportsFailureAsSet(p: PoolLists, created1: Result<PoolHandle, Error>, code: int,
                                             created2: Result<PoolHandle, Error>, second: AllocOutcome)
    requires |p.ready| > 0
    ensures AllocateAsWritten(p, created1, OtherFailure(code), created2, second).0 == Ok(NULL_HANDLE)
  {
  }

  /** With pools 1 and 2 ready and both full, the failed retry leaves pool
      1 in neither list: it is never reset, reused or destroyed again. */
  lemma AllocateAsWrittenLosesRetryPool()
    ensures var p := PoolLists([1, 2], [], 8, [], Doubling(64));
      var (r, q) := AllocateAsWritten(p, Ok(3), OutOfPoolMemory, Ok(3), OutOfPoolMemory);
      && r == Err(SetAllocFailed)
      && 1 in Owned(p) && 1 !in Owned(q)
  {
    var p := PoolLists([1, 2], [], 8, [], Doubling(64));
    assert p.ready[..1] == [1];
    var (r, q) := AllocateAsWritten(p, Ok(3), OutOfPoolMemory, Ok(3), OutOfPoolMemory);
    assert q.ready == [] && q.full == [2];
  }

  /** allocate: a set from the last ready pool (or a new one), which goes
      back to ready; on a full or fragmented pool, that pool moves to full
      and one retry is made on another. Any failure is reported, and the
      pool last tried goes back to ready. */
  function Allocate(p: PoolLists, created1: Result<PoolHandle, Error>, first: AllocOutcome,
                    created2: Result<PoolHandle, Error>, second: AllocOutcome)
    : (r: (Result<SetHandle, Error>, PoolLists))
  {
    match GetPool(p, created1)
    case Err(e) => (Err(e), p)
    case Ok((pool, q)) =>
      if Retryable(first) then Retry(q.(full := q.full + [pool]), created2, second)
      else Settle(q, pool, first)
  }

  /** The retry after a full pool: another pool, and its outcome. */
  function Retry(q: PoolLists, created: Result<PoolHandle, Error>, outcome: AllocOutcome)
    : (r: (Result<SetHandle, Error>, PoolLists))
  {
    match GetPool(q, created)
    case Err(e) => (Err(e), q)
    case Ok((pool, q2)) => Settle(q2, pool, outcome)
  }

  /** The end of an attempt: the set or the allocation error, with the
      pool back in ready. */
  function Settle(q: PoolLists, pool: PoolHandle, outcome: AllocOutcome): (r: (Result<SetHandle, Error>, PoolLists))
  {
    (if outcome.Allocated? then Ok(outcome.handle) else Err(SetAllocFailed), q.(ready := q.ready + [pool]))
  }

  /** A set is returned only when the device allocated it, on the first
      attempt or on the retry after a full pool; the device's allocation
      is always returned; anything else is an error. */
  lemma AllocateSucceedsExactlyOnAllocation(p: PoolLists, created1: Result<PoolHandle, Error>, first: AllocOutcome,
                                            created2: Result<PoolHandle, Error>, second: AllocOutcome)
    ensures var (r, _) := Allocate(p, created1, first, created2, second);
      && (r.Ok? ==> first == Allocated(r.value) || (Retryable(first) && second == Allocated(r.value)))
      && (GetPool(p, created1).Ok? && first.Allocated? ==> r == Ok(first.handle))
      && (GetPool(p, created1).Ok? && !first.Allocated? && !Retryable(first) ==> r == Err(SetAllocFailed))
      && (GetPool(p, created1).Ok? && Retryable(first) && |p.ready| >= 2 ==>
            r == if second.Allocated? then Ok(second.handle) else Err(SetAllocFailed))
  {
  }

  /** No pool is ever lost: everything held before is held after, plus at
      most the pools created on the way; with two pools ready nothing is
      created. */
  lemma AllocateKeepsPools(p: PoolLists, created1: Result<PoolHandle, Error>, first: AllocOutcome,
                            created2: Result<PoolHandle, Error>, second: AllocOutcome)
    ensures Owned(p) <= Owned(Allocate(p, created1, first, created2, second).1)
    ensures |Owned(Allocate(p, created1, first, created2, second).1)| <= |Owned(p)| + 2
    ensures |p.ready| >= 2 ==> Owned(Allocate(p, created1, first, created2, second).1) == Owned(p)
  {
    if GetPool(p, created1).Ok? {
      if Retryable(first) {
        RetriedAllocationKeepsPools(p, created1, first, created2, second);
      } else {
        SettledAllocationKeepsPools(p, created1, first, created2, second);
      }
    }
  }

  /** `AllocateKeepsPools` when the first pool is full and the allocator retries. */
  lemma RetriedAllocationKeepsPools(p: PoolLists, created1: Result<PoolHandle, Error>, first: AllocOutcome,
                                    created2: Result<PoolHandle, Error>, second: AllocOutcome)
    requires GetPool(p, created1).Ok? && Retryable(first)
    ensures Owned(p) <= Owned(Allocate(p, created1, first, created2, second).1)
    ensures |Owned(Allocate(p, created1, first, created2, second).1)| <= |Owned(p)| + 2
    ensures |p.ready| >= 2 ==> Owned(Allocate(p, created1, first, created2, second).1) == Owned(p)
  {
    var (pool, q0) := GetPool(p, created1).value;
    GetPoolTakesLastOrCreates(p, created1);
    var q1 := q0.(full := q0.full + [pool]);
    var after := Retry(q1, created2, second).1;
    assert Allocate(p, created1, first, created2, second).1 == after;
    assert Owned(q1) == Owned(q0) + multiset{pool};
    RetryKeepsPools(q1, created2, second);
    TakenPoolAccounted(p, created1, after, Owned(q1));
  }

  /** `AllocateKeepsPools` when the first attempt settles. */
  lemma SettledAllocationKeepsPools(p: PoolLists, created1: Result<PoolHandle, Error>, first: AllocOutcome,
                                    created2: Result<PoolHandle, Error>, second: AllocOutcome)
    requires GetPool(p, created1).Ok? && !Retryable(first)
    ensures Owned(p) <= Owned(Allocate(p, created1, first, created2, second).1)
    ensures |Owned(Allocate(p, created1, first, created2, second).1)| <= |Owned(p)| + 2
    ensures |p.ready| >= 2 ==> Owned(Allocate(p, created1, first, created2, second).1) == Owned(p)
  {
    var (pool, q0) := GetPool(p, created1).value;
    GetPoolTakesLastOrCreates(p, created1);
    var after := Settle(q0, pool, first).1;
    assert Allocate(p, created1, first, created2, second).1 == after;
    SettleKeepsPools(q0, pool, first);
    TakenPoolAccounted(p, created1, after, Owned(q0) + multiset{pool});
  }

  /** When the pools after an attempt hold, besides the taken pool's
      lists, at most one pool more (and none more with a ready pool to
      spare), no pool is lost and at most two are created. */
  lemma TakenPoolAccounted(p: PoolLists, created: Result<PoolHandle, Error>, after: PoolLists, held: multiset<PoolHandle>)
    requires GetPool(p, created).Ok?
    requires held == Owned(GetPool(p, created).value.1) + multiset{GetPool(p, created).value.0}
    requires held <= Owned(after) && |Owned(after)| <= |held| + 1
    requires |p.ready| >= 2 ==> Owned(after) == held
    ensures Owned(p) <= Owned(after) && |Owned(after)| <= |Owned(p)| + 2
    ensures |p.ready| >= 2 ==> Owned(after) == Owned(p)
  {
    GetPoolTakesLastOrCreates(p, created);
  }

  lemma RetryKeepsPools(q: PoolLists, created: Result<PoolHandle, Error>, outcome: AllocOutcome)
    ensures Owned(q) <= Owned(Retry(q, created, outcome).1)
    ensures |Owned(Retry(q, created, outcome).1)| <= |Owned(q)| + 1
    ensures |q.ready| >= 1 ==> Owned(Retry(q, created, outcome).1) == Owned(q)
  {
    if GetPool(q, created).Ok? {
      var (pool, q2) := GetPool(q, created).value;
      GetPoolTakesLastOrCreates(q, created);
      SettleKeepsPools(q2, pool, outcome);
    }
  }

  lemma SettleKeepsPools(q: PoolLists, pool: PoolHandle, outcome: AllocOutcome)
    ensures Owned(Settle(q, pool, outcome).1) == Owned(q) + multiset{pool}
  {
    assert Settle(q, pool, outcome).1.ready == q.ready + [pool];
  }

  /** Allocating from a ready pool that has room leaves the lists as they
      were; a full or fragmented ready pool ends up last in the full list. */
  lemma AllocateFromReadyPool(p: PoolLists, created1: Result<PoolHandle, Error>, first: AllocOutcome,
                              created2: Result<PoolHandle, Error>, second: AllocOutcome)
    requires |p.ready| > 0
    ensures first.Allocated? ==> Allocate(p, created1, first, created2, second) == (Ok(first.handle), p)
    ensures Retryable(first) ==>
      Allocate(p, created1, first, created2, second).1.full == p.full + [p.ready[|p.ready| - 1]]
  {
    var n := |p.ready| - 1;
    assert p.ready[..n] + [p.ready[n]] == p.ready;
  }

  /** descriptor.cpp init: the ratios replaced, the new pool appended to
      ready and the pool size set to twice the initial count. */
  function Init(p: PoolLists, ratios: seq<PoolRatio>, initialSets: u32, created: PoolHandle): (q: PoolLists)
  {
    p.(ratios := ratios, setsPerPool := Wrap32(2 * initialSets), ready := p.ready + [created])
  }

  /** renderer_vk_descriptor.cpp init: a fresh allocator whose only pool
      is the created one, sized one and a half times the initial count;
      a creation failure is returned. */
  function InitAllocator(ratios: seq<PoolRatio>, initialSets: u32, created: Result<PoolHandle, Error>)
    : (r: Result<PoolLists, Error>)
  {
    if created.Err? then Err(created.error)
    else Ok(PoolLists([created.value], [], Wrap32(initialSets + initialSets / 2), ratios, ByHalf))
  }

  /** Right after either init, the initial pool is the one the next
      allocation uses, and a success there leaves the lists as they were. */
  lemma InitPoolServesFirstAllocation(p: PoolLists, ratios: seq<PoolRatio>, initialSets: u32, created: PoolHandle,
                                      c1: Result<PoolHandle, Error>, s: SetHandle, c2: Result<PoolHandle, Error>, o: AllocOutcome)
    ensures var q := Init(p, ratios, initialSets, created);
      && Owned(q) == Owned(p) + multiset{created} && q.ratios == ratios
      && GetPool(q, c1) == Ok((created, p.(ratios := ratios, setsPerPool := q.setsPerPool)))
      && Allocate(q, c1, Allocated(s), c2, o) == (Ok(s), q)
    ensures InitAllocator(ratios, initialSets, Ok(created)).Ok?
    ensures var a := InitAllocator(ratios, initialSets, Ok(created)).value;
      && a.ready == [created] && a.full == [] && a.ratios == ratios
      && (initialSets <= RENDERER_MAX_SETS_PER_POOL ==> a.setsPerPool == initialSets + initialSets / 2)
      && Allocate(a, c1, Allocated(s), c2, o) == (Ok(s), a)
  {
    InitPoolIsNext(p, ratios, initialSets, created, c1, s, c2, o);
    InitAllocatorPoolIsNext(ratios, initialSets, created, c1, s, c2, o);
  }

  /** The pool `init` appends is the next one handed out. */
  lemma InitPoolIsNext(p: PoolLists, ratios: seq<PoolRatio>, initialSets: u32, created: PoolHandle,
                       c1: Result<PoolHandle, Error>, s: SetHandle, c2: Result<PoolHandle, Error>, o: AllocOutcome)
    ensures var q := Init(p, ratios, initialSets, created);
      && Owned(q) == Owned(p) + multiset{created} && q.ratios == ratios
      && GetPool(q, c1) == Ok((created, p.(ratios := ratios, setsPerPool := q.setsPerPool)))
      && Allocate(q, c1, Allocated(s), c2, o) == (Ok(s), q)
  {
    var q := Init(p, ratios, initialSets, created);
    assert q.ready[..|q.ready| - 1] == p.ready;
    AllocateFromReadyPool(q, c1, Allocated(s), c2, o);
  }

  /** The pool `init_allocator` creates is the only one, and the next handed out. */
  lemma InitAllocatorPoolIsNext(ratios: seq<PoolRatio>, initialSets: u32, created: PoolHandle,
                                c1: Result<PoolHandle, Error>, s: SetHandle, c2: Result<PoolHandle, Error>, o: AllocOutcome)
    ensures InitAllocator(ratios, initialSets, Ok(created)).Ok?
    ensures var a := InitAllocator(ratios, initialSets, Ok(created)).value;
      && a.ready == [created] && a.full == [] && a.ratios == ratios
      && (initialSets <= RENDERER_MAX_SETS_PER_POOL ==> a.setsPerPool == initialSets + initialSets / 2)
      && Allocate(a, c1, Allocated(s), c2, o) == (Ok(s), a)
  {
    AllocateFromReadyPool(InitAllocator(ratios, initialSets, Ok(created)).value, c1, Allocated(s), c2, o);
  }

  /** clear_pools / clear: the pools reset (ready then full, in order), and
      the lists with every full pool moved to ready. */
  function ClearPools(p: PoolLists): (r: (seq<PoolHandle>, PoolLists))
  {
    (p.ready + p.full, p.(ready := p.ready + p.full, full := []))
  }

  /** destroy_pools / destroy: the pools destroyed, and both lists emptied. */
  function DestroyPools(p: PoolLists): (r: (seq<PoolHandle>, PoolLists))
  {
    (p.ready + p.full, p.(ready := [], full := []))
  }

  /** Clearing resets every pool once and keeps them all, now ready;
      destroying destroys every pool once and keeps none. */
  lemma ClearAndDestroyCoverEveryPool(p: PoolLists)
    ensures multiset(ClearPools(p).0) == Owned(p)
    ensures Owned(ClearPools(p).1) == Owned(p) && ClearPools(p).1.full == []
    ensures multiset(DestroyPools(p).0) == Owned(p)
    ensures Owned(DestroyPools(p).1) == multiset{}
    ensures DestroyPools(ClearPools(p).1).0 == ClearPools(p).0
  {
  }

  datatype BufferInfo = BufferInfo(buffer: u64, offset: nat, range: nat)
  datatype ImageInfo = ImageInfo(sampler: u64, imageView: u64, imageLayout: u32)

  /** Which collected info a write points at. */
  datatype InfoRef = BufferRef(bufferIndex: nat) | ImageRef(imageIndex: nat)

  datatype DescriptorWrite = DescriptorWrite(
    binding: u32, dstSet: SetHandle, descriptorCount: nat, descriptorType: u32, info: InfoRef)

  datatype Writer = Writer(bufferInfos: seq<BufferInfo>, imageInfos: seq<ImageInfo>, writes: seq<DescriptorWrite>)

  /** Every write points at an info the writer holds. */
  predicate WriterInv(w: Writer)
  {
    forall k :: 0 <= k < |w.writes| ==>
      match w.writes[k].info
      case BufferRef(i) => i < |w.bufferInfos|
      case ImageRef(i) => i < |w.imageInfos|
  }

  function WriteBuffer(w: Writer, binding: u32, buffer: u64, size: nat, offset: nat, descriptorType: u32): (r: Writer)
  {
    Writer(w.bufferInfos + [BufferInfo(buffer, offset, size)], w.imageInfos,
           w.writes + [DescriptorWrite(binding, NULL_HANDLE, 1, descriptorType, BufferRef(|w.bufferInfos|))])
  }

  function WriteImage(w: Writer, binding: u32, imageView: u64, sampler: u64, imageLayout: u32, descriptorType: u32): (r: Writer)
  {
    Writer(w.bufferInfos, w.imageInfos + [ImageInfo(sampler, imageView, imageLayout)],
           w.writes + [DescriptorWrite(binding, NULL_HANDLE, 1, descriptorType, ImageRef(|w.imageInfos|))])
  }

  /** update_set: every collected write aimed at the target set. */
  function UpdateSet(w: Writer, target: SetHandle): (r: Writer)
  {
    w.(writes := seq(|w.writes|, k requires 0 <= k < |w.writes| => w.writes[k].(dstSet := target)))
  }

  function ClearWriter(w: Writer): (r: Writer)
  {
    Writer([], [], [])
  }

  /** A write call adds exactly one write, of one descriptor, not yet
      aimed at a set, pointing at the info it added; earlier writes and
      infos stay. */
  lemma WritesPointAtTheirInfo(w: Writer, binding: u32, buffer: u64, size: nat, offset: nat, descriptorType: u32,
                               imageView: u64, sampler: u64, imageLayout: u32)
    requires WriterInv(w)
    ensures var r := WriteBuffer(w, binding, buffer, size, offset, descriptorType);
      && WriterInv(r) && r.writes[..|w.writes|] == w.writes && r.bufferInfos[..|w.bufferInfos|] == w.bufferInfos
      && |r.writes| == |w.writes| + 1
      && var nw := r.writes[|w.writes|];
      && nw.dstSet == NULL_HANDLE && nw.descriptorCount == 1 && nw.binding == binding && nw.descriptorType == descriptorType
      && nw.info.BufferRef? && r.bufferInfos[nw.info.bufferIndex] == BufferInfo(buffer, offset, size)
    ensures var r := WriteImage(w, binding, imageView, sampler, imageLayout, descriptorType);
      && WriterInv(r) && r.writes[..|w.writes|] == w.writes && r.imageInfos[..|w.imageInfos|] == w.imageInfos
      && |r.writes| == |w.writes| + 1
      && var nw := r.writes[|w.writes|];
      && nw.dstSet == NULL_HANDLE && nw.descriptorCount == 1 && nw.binding == binding && nw.descriptorType == descriptorType
      && nw.info.ImageRef? && r.imageInfos[nw.info.imageIndex] == ImageInfo(sampler, imageView, imageLayout)
  {
    var r := WriteBuffer(w, binding, buffer, size, offset, descriptorType);
    assert forall k :: 0 <= k < |w.writes| ==> r.writes[k] == w.writes[k];
    var r2 := WriteImage(w, binding, imageView, sampler, imageLayout, descriptorType);
    assert forall k :: 0 <= k < |w.writes| ==> r2.writes[k] == w.writes[k];
  }

  /** update_set aims every write at the target set and changes nothing else; a
      second update_set retargets them all. */
  lemma UpdateSetAimsEveryWrite(w: Writer, target: SetHandle, other: SetHandle)
    requires WriterInv(w)
    ensures var r := UpdateSet(w, target);
      && WriterInv(r) && r.bufferInfos == w.bufferInfos && r.imageInfos == w.imageInfos && |r.writes| == |w.writes|
      && (forall k :: 0 <= k < |r.writes| ==> r.writes[k].dstSet == target && r.writes[k].(dstSet := w.writes[k].dstSet) == w.writes[k])
    ensures UpdateSet(UpdateSet(w, target), other) == UpdateSet(w, other)
  {
  }

  datatype Binding = Binding(binding: u32, descriptorCount: nat, descriptorType: u32, stageFlags: set<nat>)

  /** add_binding: one descriptor of the type at the binding, no stages yet. */
  function AddBinding(bs: seq<Binding>, binding: u32, descriptorType: u32): (r: seq<Binding>)
  {
    bs + [Binding(binding, 1, descriptorType, {})]
  }

  function AddStages(b: Binding, stages: set<nat>): Binding
  {
    b.(stageFlags := b.stageFlags + stages)
  }

  function WithStages(bs: seq<Binding>, stages: set<nat>): seq<Binding>
  {
    seq(|bs|, k requires 0 <= k < |bs| => AddStages(bs[k], stages))
  }

  /** build: the stages ORed into every binding (kept even when the device
      refuses the layout), then the layout or the build error. */
  function Build(bs: seq<Binding>, stages: set<nat>, created: Option<LayoutHandle>): (r: (Result<LayoutHandle, Error>, seq<Binding>))
  {
    (if created.Some? then Ok(created.value) else Err(LayoutBuildFailed), WithStages(bs, stages))
  }

  /** After build every binding carries the requested stages and keeps the
      ones it had, and nothing else about it changes; building again with
      the same stages changes nothing. */
  lemma BuildAddsStages(bs: seq<Binding>, stages: set<nat>, created: Option<LayoutHandle>)
    ensures var (r, nb) := Build(bs, stages, created);
      && (r.Ok? <==> created.Some?)
      && |nb| == |bs|
      && (forall k :: 0 <= k < |bs| ==>
            && stages <= nb[k].stageFlags
            && bs[k].stageFlags <= nb[k].stageFlags && nb[k].stageFlags <= bs[k].stageFlags + stages
            && nb[k].(stageFlags := bs[k].stageFlags) == bs[k])
      && Build(nb, stages, created).1 == nb
  {
    var nb := WithStages(bs, stages);
    forall k | 0 <= k < |bs|
      ensures stages <= nb[k].stageFlags
      ensures bs[k].stageFlags <= nb[k].stageFlags && nb[k].stageFlags <= bs[k].stageFlags + stages
      ensures nb[k].(stageFlags := bs[k].stageFlags) == bs[k]
      ensures WithStages(nb, stages)[k] == nb[k]
    {
      AddStagesKeepsBoth(bs[k], stages);
    }
  }

  lemma AddStagesKeepsBoth(b: Binding, stages: set<nat>)
    ensures stages <= AddStages(b, stages).stageFlags
    ensures b.stageFlags <= AddStages(b, stages).stageFlags
    ensures AddStages(b, stages).(stageFlags := b.stageFlags) == b
    ensures AddStages(AddStages(b, stages), stages) == AddStages(b, stages)
  {
  }

  /** Added bindings hold one descriptor each, with no stages until built. */
  lemma AddBindingAppends(bs: seq<Binding>, binding: u32, descriptorType: u32)
    ensures var r := AddBinding(bs, binding, descriptorType);
      && |r| == |bs| + 1 && r[..|bs|] == bs
      && r[|bs|].binding == binding && r[|bs|].descriptorCount == 1
      && r[|bs|].descriptorType == descriptorType && r[|bs|].stageFlags == {}
  {
    assert AddBinding(bs, binding, descriptorType)[..|bs|] == bs;
  }
}

/** The allocator, writer and builder as the objects whose lists their
    methods change in place. */
module DescriptorObjects {
  import opened Machine
  import opened Wrappers
  import opened Descriptors

  class DescriptorAllocator {
    var ready: seq<PoolHandle>
    var full: seq<PoolHandle>
    var setsPerPool: u32
    var ratios: seq<PoolRatio>
    const growth: Growth

    function Model(): PoolLists
      reads this
    {
      PoolLists(ready, full, setsPerPool, ratios, growth)
    }

    /** The renderer's init: a fresh allocator, or the creation error. */
    static method InitAllocator(ratioList: seq<PoolRatio>, initialSets: u32, created: Result<PoolHandle, Error>)
      returns (r: Result<DescriptorAllocator, Error>)
      ensures r.Err? <==> created.Err?
      ensures r.Err? ==> r.error == created.error
      ensures r.Ok? ==> fresh(r.value) && Descriptors.InitAllocator(ratioList, initialSets, created) == Ok(r.value.Model())
    {
      if created.Err? {
        return Err(created.error);
      }
      var a := new DescriptorAllocator(ByHalf);
      a.ratios := [];
      var i := 0;
      while i < |ratioList|
        invariant 0 <= i <= |ratioList|
        invariant a.ratios == ratioList[..i]
        invariant a.ready == [] && a.full == [] && a.growth == ByHalf
        modifies a
      {
        a.ratios := a.ratios + [ratioList[i]];
        i := i + 1;
      }
      assert ratioList[..|ratioList|] == ratioList;
      a.setsPerPool := Wrap32(initialSets + initialSets / 2);
      a.ready := a.ready + [created.value];
      assert a.ready == [created.value];
      assert a.Model() == PoolLists([created.value], [], Wrap32(initialSets + initialSets / 2), ratioList, ByHalf);
      return Ok(a);
    }

    constructor (g: Growth)
      ensures Model() == PoolLists([], [], 0, [], g)
    {
      ready := [];
      full := [];
      setsPerPool := 0;
      ratios := [];
      growth := g;
    }

    /** descriptor.cpp init: the ratios copied in, one more ready pool. */
    method Init(ratioList: seq<PoolRatio>, initialSets: u32, created: PoolHandle)
      modifies this
      ensures Model() == Descriptors.Init(old(Model()), ratioList, initialSets, created)
    {
      ratios := [];
      var i := 0;
      while i < |ratioList|
        invariant 0 <= i <= |ratioList|
        invariant ratios == ratioList[..i]
        invariant ready == old(ready) && full == old(full) && setsPerPool == old(setsPerPool)
      {
        ratios := ratios + [ratioList[i]];
        i := i + 1;
      }
      setsPerPool := Wrap32(2 * initialSets);
      ready := ready + [created];
    }

    method GetPool(created: Result<PoolHandle, Error>) returns (r: Result<PoolHandle, Error>)
      modifies this
      ensures Descriptors.GetPool(old(Model()), created).Ok? ==>
        r == Ok(Descriptors.GetPool(old(Model()), created).value.0)
        && Model() == Descriptors.GetPool(old(Model()), created).value.1
      ensures Descriptors.GetPool(old(Model()), created).Err? ==>
        r == Err(Descriptors.GetPool(old(Model()), created).error) && Model() == old(Model())
    {
      if |ready| != 0 {
        var pool := ready[|ready| - 1];
        ready := ready[..|ready| - 1];
        return Ok(pool);
      }
      if created.Err? {
        return Err(created.error);
      }
      setsPerPool := Grow(growth, setsPerPool);
      return Ok(created.value);
    }

    method Allocate(created1: Result<PoolHandle, Error>, first: AllocOutcome,
                    created2: Result<PoolHandle, Error>, second: AllocOutcome)
      returns (r: Result<SetHandle, Error>)
      modifies this
      ensures (r, Model()) == Descriptors.Allocate(old(Model()), created1, first, created2, second)
    {
      var pool := GetPool(created1);
      if pool.Err? {
        return Err(pool.error);
      }
      var outcome := first;
      if Retryable(first) {
        full := full + [pool.value];
        pool := GetPool(created2);
        if pool.Err? {
          return Err(pool.error);
        }
        outcome := second;
      }
      ready := ready + [pool.value];
      r := if outcome.Allocated? then Ok(outcome.handle) else Err(SetAllocFailed);
    }

    method ClearPools() returns (reset: seq<PoolHandle>)
      modifies this
      ensures (reset, Model()) == Descriptors.ClearPools(old(Model()))
    {
      reset := [];
      var i := 0;
      while i < |ready|
        invariant 0 <= i <= |ready|
        invariant reset == ready[..i]
        invariant Model() == old(Model())
      {
        reset := reset + [ready[i]];
        i := i + 1;
      }
      assert ready[..|ready|] == ready;
      var j := 0;
      while j < |full|
        invariant 0 <= j <= |full|
        invariant reset == old(ready) + full[..j]
        invariant ready == old(ready) + full[..j]
        invariant full == old(full) && setsPerPool == old(setsPerPool) && ratios == old(ratios)
      {
        reset := reset + [full[j]];
        ready := ready + [full[j]];
        assert full[..j + 1] == full[..j] + [full[j]];
        j := j + 1;
      }
      assert full[..|full|] == full;
      full := [];
    }

    method DestroyPools() returns (destroyed: seq<PoolHandle>)
      modifies this
      ensures (destroyed, Model()) == Descriptors.DestroyPools(old(Model()))
    {
      destroyed := [];
      var i := 0;
      while i < |ready|
        invariant 0 <= i <= |ready|
        invariant destroyed == ready[..i]
        invariant Model() == old(Model())
      {
        destroyed := destroyed + [ready[i]];
        i := i + 1;
      }
      assert ready[..|ready|] == ready;
      ready := [];
      var j := 0;
      while j < |full|
        invariant 0 <= j <= |full|
        invariant destroyed == old(ready) + full[..j]
        invariant ready == [] && full == old(full) && setsPerPool == old(setsPerPool) && ratios == old(ratios)
      {
        destroyed := destroyed + [full[j]];
        assert full[..j + 1] == full[..j] + [full[j]];
        j := j + 1;
      }
      assert full[..|full|] == full;
      full := [];
    }
  }

  class DescriptorWriter {
    var bufferInfos: seq<BufferInfo>
    var imageInfos: seq<ImageInfo>
    var writes: seq<DescriptorWrite>

    function Model(): Writer
      reads this
    {
      Writer(bufferInfos, imageInfos, writes)
    }

    constructor ()
      ensures Model() == Writer([], [], [])
    {
      bufferInfos := [];
      imageInfos := [];
      writes := [];
    }

    method WriteBuffer(binding: u32, buffer: u64, size: nat, offset: nat, descriptorType: u32)
      modifies this
      ensures Model() == Descriptors.WriteBuffer(old(Model()), binding, buffer, size, offset, descriptorType)
    {
      var index := |bufferInfos|;
      bufferInfos := bufferInfos + [BufferInfo(buffer, offset, size)];
      writes := writes + [DescriptorWrite(binding, NULL_HANDLE, 1, descriptorType, BufferRef(index))];
    }

    method WriteImage(binding: u32, imageView: u64, sampler: u64, imageLayout: u32, descriptorType: u32)
      modifies this
      ensures Model() == Descriptors.WriteImage(old(Model()), binding, imageView, sampler, imageLayout, descriptorType)
    {
      var index := |imageInfos|;
      imageInfos := imageInfos + [ImageInfo(sampler, imageView, imageLayout)];
      writes := writes + [DescriptorWrite(binding, NULL_HANDLE, 1, descriptorType, ImageRef(index))];
    }

    method Clear()
      modifies this
      ensures Model() == ClearWriter(old(Model()))
    {
      bufferInfos := [];
      imageInfos := [];
      writes := [];
    }

    /** update_set: each write's target set, one at a time. */
    method UpdateSet(target: SetHandle)
      modifies this
      ensures Model() == Descriptors.UpdateSet(old(Model()), target)
    {
      var k := 0;
      while k < |writes|
        invariant 0 <= k <= |writes| == |old(writes)|
        invariant bufferInfos == old(bufferInfos) && imageInfos == old(imageInfos)
        invariant forall i :: 0 <= i < k ==> writes[i] == old(writes)[i].(dstSet := target)
        invariant forall i :: k <= i < |writes| ==> writes[i] == old(writes)[i]
      {
        writes := writes[k := writes[k].(dstSet := target)];
        k := k + 1;
      }
    }
  }

  class LayoutBuilder {
    var bindings: seq<Binding>

    constructor ()
      ensures bindings == []
    {
      bindings := [];
    }

    method AddBinding(binding: u32, descriptorType: u32)
      modifies this
      ensures bindings == Descriptors.AddBinding(old(bindings), binding, descriptorType)
    {
      bindings := bindings + [Binding(binding, 1, descriptorType, {})];
    }

    method Clear()
      modifies this
      ensures bindings == []
    {
      bindings := [];
    }

    /** build: the stages ORed into each binding in place, then the device's
        answer. */
    method Build(stages: set<nat>, created: Option<LayoutHandle>) returns (r: Result<LayoutHandle, Error>)
      modifies this
      ensures (r, bindings) == Descriptors.Build(old(bindings), stages, created)
    {
      var k := 0;
      while k < |bindings|
        invariant 0 <= k <= |bindings| == |old(bindings)|
        invariant forall i :: 0 <= i < k ==> bindings[i] == AddStages(old(bindings)[i], stages)
        invariant forall i :: k <= i < |bindings| ==> bindings[i] == old(bindings)[i]
      {
        bindings := bindings[k := AddStages(bindings[k], stages)];
        k := k + 1;
      }
      assert bindings == WithStages(old(bindings), stages);
      r := if created.Some? then Ok(created.value) else Err(LayoutBuildFailed);
    }
  }
}
