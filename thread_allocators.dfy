/**
 * The per-thread allocators: one stack allocator per worker thread, each with
 * the same capacity and a name taken from a fixed table of twenty entries.
 */
module ThreadAllocators {
  import opened Wrappers

  /** Entries in the name table. */
  const NAMED_THREADS: nat := 20

  /** The decimal digits of a thread index below the table size. */
  function Decimal(i: nat): (r: string)
    requires i < NAMED_THREADS
    ensures 1 <= |r| <= 2 && (|r| == 1 <==> i < 10)
  {
    if i < 10 then [DigitChar(i)] else ['1', DigitChar(i - 10)]
  }

  function DigitChar(d: nat): (c: char)
    requires d < 10
    ensures '0' <= c <= '9' && c as int - '0' as int == d
  {
    ('0' as int + d) as char
  }

  /** The table's name for thread `i`: `Thread <i> stack allocator`. */
  function ThreadName(i: nat): (r: string)
    requires i < NAMED_THREADS
    ensures |r| == 7 + |Decimal(i)| + 16
    ensures r[..7] == "Thread " && r[7..7 + |Decimal(i)|] == Decimal(i)
  {
    "Thread " + Decimal(i) + " stack allocator"
  }

  /**
   * The name `init` reads for thread `i`: the table's entry, or `None` for an
   * index past the table, whose read the program leaves undefined.
   */
  function NameEntry(i: nat): (r: Option<string>)
    ensures r.Some? <==> i < NAMED_THREADS
  {
    if i < NAMED_THREADS then Some(ThreadName(i)) else None
  }

  /** The names read for the first `n` threads, in index order. */
  function Names(n: nat): (r: seq<Option<string>>)
    ensures |r| == n && forall i :: 0 <= i < n ==> r[i] == NameEntry(i)
  {
    seq(n, i requires 0 <= i < n => NameEntry(i))
  }

  /** One more thread extends the names by its entry. */
  lemma NamesStep(n: nat)
    ensures Names(n + 1) == Names(n) + [NameEntry(n)]
  {
    assert forall i :: 0 <= i < n ==> Names(n + 1)[i] == Names(n)[i];
  }

  /** No two threads share a name. */
  lemma ThreadNamesDistinct(i: nat, j: nat)
    requires i < NAMED_THREADS && j < NAMED_THREADS && i != j
    ensures ThreadName(i) != ThreadName(j)
  {
    var di, dj := Decimal(i), Decimal(j);
    if |di| == |dj| {
      if |di| == 1 {
        assert ThreadName(i)[7] == di[0] && ThreadName(j)[7] == dj[0];
      } else {
        assert ThreadName(i)[8] == di[1] && ThreadName(j)[8] == dj[1];
      }
    } else {
      assert |ThreadName(i)| != |ThreadName(j)|;
    }
  }

  /** `at(i)`: element `i` when it exists, the last allocator otherwise. */
  function AtIndex(count: nat, i: nat): (r: nat)
    requires count > 0
    ensures r < count
    ensures i < count ==> r == i
    ensures i >= count ==> r == count - 1
  {
    if i < count then i else count - 1
  }

  /** The destructor's order: highest index first. */
  function DestructionOrder(count: nat): (r: seq<nat>)
    ensures |r| == count
    ensures forall k :: 0 <= k < count ==> r[k] == count - 1 - k
  {
    if count == 0 then [] else [count - 1] + DestructionOrder(count - 1)
  }

  /** Every allocator is destroyed exactly once. */
  lemma {:induction false} DestructionOrderCoversAll(count: nat)
    ensures forall i :: 0 <= i < count ==> multiset(DestructionOrder(count))[i] == 1
    ensures forall i :: i >= count ==> multiset(DestructionOrder(count))[i] == 0
  {
    if count > 0 {
      DestructionOrderCoversAll(count - 1);
      PrependExtendsCover(count - 1, DestructionOrder(count - 1));
    }
  }

  /** Putting `n` in front of a list that holds 0..n-1 once each gives one
      that holds 0..n once each. */
  lemma PrependExtendsCover(n: nat, t: seq<nat>)
    requires forall i :: 0 <= i < n ==> multiset(t)[i] == 1
    requires forall i :: i >= n ==> multiset(t)[i] == 0
    ensures forall i :: 0 <= i < n + 1 ==> multiset([n] + t)[i] == 1
    ensures forall i :: i >= n + 1 ==> multiset([n] + t)[i] == 0
  {
    assert multiset([n] + t) == multiset{n} + multiset(t);
  }
}

/** `global_thread_allocators` as an object whose allocator array is filled and torn down in place. */
module ThreadAllocatorsClass {
  import opened Machine
  import opened AllocUtil
  import opened StackArenaClass
  import opened Wrappers
  import opened ThreadAllocators

  /** The loop of `init`: `n` fresh stack allocators of `capacity` bytes, named by index. */
  method NewAllocators(n: nat, capacity: u64) returns (allocators: seq<StackAllocator>, names: seq<Option<string>>)
    ensures |allocators| == |names| == n
    ensures names == Names(n)
    ensures forall i :: 0 <= i < n ==> (if i < NAMED_THREADS then names[i] == Some(ThreadName(i)) else names[i] == None)
    ensures forall i :: 0 <= i < n ==>
      && fresh(allocators[i])
      && allocators[i].buffer.Length == AlignAllocSize(capacity, DEFAULT_ALIGNMENT)
      && allocators[i].Valid() && allocators[i].freeIndex == 0
    ensures forall i, j :: 0 <= i < j < n ==> allocators[i] != allocators[j]
  {
    allocators, names := [], [];
    var i := 0;
    while i < n
      invariant 0 <= i <= n && |allocators| == |names| == i
      invariant names == Names(i)
      invariant forall k :: 0 <= k < i ==>
        && fresh(allocators[k])
        && allocators[k].buffer.Length == AlignAllocSize(capacity, DEFAULT_ALIGNMENT)
        && allocators[k].Valid() && allocators[k].freeIndex == 0
      invariant forall k, l :: 0 <= k < l < i ==> allocators[k] != allocators[l]
    {
      var a := new StackAllocator(capacity);
      allocators := allocators + [a];
      names := names + [NameEntry(i)];
      NamesStep(i);
      i := i + 1;
    }
  }

  class GlobalThreadAllocators {
    var allocators: seq<StackAllocator>
    var names: seq<Option<string>>
    var numThreads: nat
    var memoryPerThread: u64
    /** The indices whose allocators the destructor has torn down, in order. */
    var destroyed: seq<nat>

    predicate Valid()
      reads this
    {
      |allocators| == |names| == numThreads
    }

    constructor ()
      ensures Valid() && allocators == [] && numThreads == 0 && destroyed == []
    {
      allocators := [];
      names := [];
      numThreads := 0;
      memoryPerThread := 0;
      destroyed := [];
    }

    /** `init`: `nt` fresh stack allocators of `mpt` bytes each (the signed amount converted to `size_t`), named by index. */
    method Init(nt: nat, mpt: int)
      requires Valid() && numThreads == 0
      modifies this
      ensures Valid() && numThreads == nt && memoryPerThread == Wrap64(mpt) && destroyed == old(destroyed)
      ensures forall i :: 0 <= i < nt ==> (if i < NAMED_THREADS then names[i] == Some(ThreadName(i)) else names[i] == None)
      ensures forall i :: 0 <= i < nt ==>
        && fresh(allocators[i])
        && allocators[i].buffer.Length == AlignAllocSize(memoryPerThread, DEFAULT_ALIGNMENT)
        && allocators[i].Valid() && allocators[i].freeIndex == 0
      ensures forall i, j :: 0 <= i < j < nt ==> allocators[i] != allocators[j]
    {
      numThreads := nt;
      memoryPerThread := Wrap64(mpt);
      allocators, names := NewAllocators(nt, memoryPerThread);
    }

    /** `at(i)`: out-of-range indices fall back to the last allocator. */
    method At(i: nat) returns (a: StackAllocator)
      requires Valid() && numThreads > 0
      ensures a == allocators[AtIndex(numThreads, i)]
    {
      if i < |allocators| {
        a := allocators[i];
      } else {
        a := allocators[|allocators| - 1];
      }
    }

    /** `back`: the last allocator. */
    method Back() returns (a: StackAllocator)
      requires Valid() && numThreads > 0
      ensures a == allocators[numThreads - 1]
    {
      a := allocators[|allocators| - 1];
    }

    /** The destructor: tears the allocators down from the last index to the first. */
    method Destroy()
      requires Valid()
      modifies this
      ensures destroyed == old(destroyed) + DestructionOrder(numThreads)
      ensures allocators == old(allocators) && numThreads == old(numThreads)
    {
      var i := numThreads;
      while i > 0
        invariant 0 <= i <= numThreads
        invariant destroyed == old(destroyed) + DestructionOrder(numThreads)[..numThreads - i]
        invariant allocators == old(allocators) && numThreads == old(numThreads)
      {
        i := i - 1;
        assert DestructionOrder(numThreads)[..numThreads - i]
          == DestructionOrder(numThreads)[..numThreads - i - 1] + [i];
        destroyed := destroyed + [i];
      }
    }
  }
}
