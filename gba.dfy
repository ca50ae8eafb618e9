/**
 * The GPU bump array (`gba`): `redundancy` GPU buffers of `capacity` elements
 * each, written one after another. Elements are bumped into the current write
 * buffer; locking a buffer puts a fence on it and moves to the next one, and a
 * fenced buffer is waited on before it is written again. Fences are modelled as
 * a flag per buffer, and waiting on one as the GPU eventually signalling it.
 */
module GpuBumpArray {
  import opened Wrappers
  import opened Machine

  /** The mapped memory of each buffer (index to element) and the fence flag of each buffer. */
  datatype Gba<T> = Gba(capacity: nat, writeIdx: nat, writeBuffer: nat,
                        contents: seq<map<int, T>>, fenced: seq<bool>)

  /** A pointer into one of the mapped buffers. */
  datatype Slot = Slot(buffer: nat, index: nat)

  predicate Inv<T>(g: Gba<T>)
  {
    |g.contents| == |g.fenced| > 0 && g.writeBuffer < |g.fenced| && g.writeIdx <= g.capacity
  }

  /** `create`: no fences, indices at 0, buffers of `capacity` elements with nothing written yet. */
  function Create<T>(capacity: nat, redundancy: nat): (r: Gba<T>)
    requires redundancy > 0
    ensures Inv(r) && |r.fenced| == redundancy && r.capacity == capacity
    ensures r.writeIdx == 0 && r.writeBuffer == 0
    ensures forall i :: 0 <= i < redundancy ==> !r.fenced[i] && r.contents[i] == map[]
  {
    Gba(capacity, 0, 0, seq(redundancy, _ => map[]), seq(redundancy, _ => false))
  }

  /** `wait_buffer`: once the fence of buffer `i` signals, it is deleted. */
  function WaitBuffer<T>(g: Gba<T>, i: nat): (r: Gba<T>)
    requires Inv(g) && i < |g.fenced|
    ensures Inv(r) && r == g.(fenced := g.fenced[i := false])
  {
    g.(fenced := g.fenced[i := false])
  }

  /** `wait_idle`: every fence is waited for and deleted. */
  function WaitIdle<T>(g: Gba<T>): (r: Gba<T>)
    requires Inv(g)
    ensures Inv(r) && r == g.(fenced := seq(|g.fenced|, _ => false))
  {
    g.(fenced := seq(|g.fenced|, _ => false))
  }

  /**
   * `push`: waits on the write buffer and stores the value at `write_idx`.
   * Debug builds ignore a push at capacity; other builds write past the
   * buffer, which the model excludes.
   */
  function Push<T>(g: Gba<T>, value: T, debug: bool): (r: Gba<T>)
    requires Inv(g) && (!debug ==> g.writeIdx < g.capacity)
    ensures Inv(r) && r.writeBuffer == g.writeBuffer && r.capacity == g.capacity
    ensures debug && g.writeIdx == g.capacity ==> r == g
    ensures g.writeIdx < g.capacity ==>
      && r.writeIdx == g.writeIdx + 1
      && r.contents == g.contents[g.writeBuffer := g.contents[g.writeBuffer][g.writeIdx := value]]
      && r.fenced == g.fenced[g.writeBuffer := false]
  {
    if debug && g.writeIdx == g.capacity then g
    else
      var w := WaitBuffer(g, g.writeBuffer);
      var buffer := w.contents[w.writeBuffer][w.writeIdx := value];
      w.(contents := w.contents[w.writeBuffer := buffer], writeIdx := w.writeIdx + 1)
  }

  /** `get_elm_ptr`: the element's place in the write buffer; debug builds return null past `size()`. */
  function GetElmPtr<T>(g: Gba<T>, idx: nat, debug: bool): (r: Option<Slot>)
    ensures r.None? <==> debug && idx >= g.writeIdx
    ensures r.Some? ==> r.value == Slot(g.writeBuffer, idx)
  {
    if debug && idx >= g.writeIdx then None else Some(Slot(g.writeBuffer, idx))
  }

  /** `lock_write_buffer`: an unfenced write buffer is fenced and the next buffer becomes the write buffer. */
  function LockWriteBuffer<T>(g: Gba<T>): (r: Gba<T>)
    requires Inv(g)
    ensures Inv(r) && r.writeIdx == g.writeIdx && r.contents == g.contents
    ensures g.fenced[g.writeBuffer] ==> r == g
    ensures !g.fenced[g.writeBuffer] ==>
      r.fenced == g.fenced[g.writeBuffer := true] && r.writeBuffer == (g.writeBuffer + 1) % |g.fenced|
  {
    if g.fenced[g.writeBuffer] then g
    else g.(fenced := g.fenced[g.writeBuffer := true], writeBuffer := (g.writeBuffer + 1) % |g.fenced|)
  }

  /** `reset`: the array is emptied for reuse; nothing else changes. */
  function Reset<T>(g: Gba<T>): (r: Gba<T>)
    requires Inv(g)
    ensures Inv(r) && r == g.(writeIdx := 0)
  {
    g.(writeIdx := 0)
  }

  /** `reinit`: all fences are waited for, and writing restarts at buffer 0, index 0. */
  function Reinit<T>(g: Gba<T>): (r: Gba<T>)
    requires Inv(g)
    ensures Inv(r) && r.writeIdx == 0 && r.writeBuffer == 0 && r.contents == g.contents
    ensures |r.fenced| == |g.fenced| && forall i :: 0 <= i < |r.fenced| ==> !r.fenced[i]
  {
    WaitIdle(g).(writeBuffer := 0, writeIdx := 0)
  }

  /** `size`: the number of elements pushed into the write buffer since the last reset. */
  function Size<T>(g: Gba<T>): nat
  {
    g.writeIdx
  }

  /** A push that fits can be read back through `get_elm_ptr`, and the elements before it are untouched. */
  lemma PushThenRead<T>(g: Gba<T>, value: T, debug: bool)
    requires Inv(g) && g.writeIdx < g.capacity
    ensures var r := Push(g, value, debug);
      var s := GetElmPtr(r, g.writeIdx, debug);
      Size(r) == Size(g) + 1 && s == Some(Slot(g.writeBuffer, g.writeIdx))
      && r.contents[s.value.buffer][s.value.index] == value
      && forall k :: k in g.contents[g.writeBuffer] && k != g.writeIdx ==>
           k in r.contents[g.writeBuffer] && r.contents[g.writeBuffer][k] == g.contents[g.writeBuffer][k]
  {
  }

  /** `count` successive locks without any wait in between. */
  function LockTimes<T>(g: Gba<T>, count: nat): (r: Gba<T>)
    requires Inv(g)
    ensures Inv(r) && |r.fenced| == |g.fenced|
    decreases count
  {
    if count == 0 then g else LockWriteBuffer(LockTimes(g, count - 1))
  }

  /** A state with no fence and buffer 0 as the write buffer, as `create` and `reinit` leave it. */
  predicate Fresh<T>(g: Gba<T>)
  {
    Inv(g) && g.writeBuffer == 0 && forall i :: 0 <= i < |g.fenced| ==> !g.fenced[i]
  }

  /** From a fresh state, the first `count` locks fence buffers 0 to `count - 1` and stop on buffer `count`. */
  lemma {:induction false} LocksFenceInOrder<T>(g: Gba<T>, count: nat)
    requires Fresh(g) && count < |g.fenced|
    ensures var r := LockTimes(g, count);
      r.writeBuffer == count && forall i :: 0 <= i < |g.fenced| ==> (r.fenced[i] <==> i < count)
    decreases count
  {
    if count > 0 {
      LocksFenceInOrder(g, count - 1);
      var p := LockTimes(g, count - 1);
      assert p.writeBuffer == count - 1 && !p.fenced[count - 1];
      ModUnique(count, |g.fenced|, 0, count);
      assert LockTimes(g, count) == LockWriteBuffer(p);
    }
  }

  /**
   * After `reinit`, `redundancy` locks fence every buffer and come back to
   * buffer 0; a further lock then changes nothing until a buffer is waited on.
   */
  lemma LocksAfterReinitCycle<T>(g: Gba<T>)
    requires Inv(g)
    ensures var r := LockTimes(Reinit(g), |g.fenced|);
      r.writeBuffer == 0 && (forall i :: 0 <= i < |g.fenced| ==> r.fenced[i])
      && LockWriteBuffer(r) == r
  {
    var n := |g.fenced|;
    var h := Reinit(g);
    LocksFenceInOrder(h, n - 1);
    var p := LockTimes(h, n - 1);
    assert LockTimes(h, n) == LockWriteBuffer(p);
    ModUnique(n, n, 1, 0);
  }
}

/** The bump array as an object whose indices, buffers and fences change in place. */
module GpuBumpArrayClass {
  import opened Wrappers
  import opened GpuBumpArray

  class BumpArray<T> {
    const debug: bool
    var capacity: nat
    var writeIdx: nat
    var writeBuffer: nat
    var contents: seq<map<int, T>>
    var fenced: seq<bool>

    function Model(): Gba<T>
      reads this
    {
      Gba(capacity, writeIdx, writeBuffer, contents, fenced)
    }

    predicate Valid()
      reads this
    {
      Inv(Model())
    }

    constructor Create(cap: nat, redundancy: nat, debugBuild: bool)
      requires redundancy > 0
      ensures Valid() && debug == debugBuild && Model() == GpuBumpArray.Create(cap, redundancy)
    {
      debug := debugBuild;
      capacity := cap;
      writeIdx := 0;
      writeBuffer := 0;
      contents := seq(redundancy, _ => map[]);
      fenced := seq(redundancy, _ => false);
    }

    method WaitBuffer(i: nat)
      requires Valid() && i < |fenced|
      modifies this
      ensures Valid() && Model() == GpuBumpArray.WaitBuffer(old(Model()), i)
    {
      if fenced[i] {
        fenced := fenced[i := false];
      }
    }

    method WaitIdle()
      requires Valid()
      modifies this
      ensures Valid() && Model() == GpuBumpArray.WaitIdle(old(Model()))
    {
      var i := 0;
      while i < |fenced|
        invariant 0 <= i <= |fenced| && Valid()
        invariant Model() == old(Model()).(fenced := Model().fenced) && |fenced| == |old(fenced)|
        invariant forall k :: 0 <= k < |fenced| ==> fenced[k] == (k >= i && old(fenced)[k])
      {
        WaitBuffer(i);
        i := i + 1;
      }
    }

    method Push(value: T)
      requires Valid() && (!debug ==> writeIdx < capacity)
      modifies this
      ensures Valid() && Model() == GpuBumpArray.Push(old(Model()), value, debug)
    {
      if debug && writeIdx == capacity {
        return;
      }
      WaitBuffer(writeBuffer);
      contents := contents[writeBuffer := contents[writeBuffer][writeIdx := value]];
      writeIdx := writeIdx + 1;
    }

    method GetElmPtr(idx: nat) returns (p: Option<Slot>)
      ensures p == GpuBumpArray.GetElmPtr(Model(), idx, debug)
    {
      if debug && idx >= writeIdx {
        return None;
      }
      p := Some(Slot(writeBuffer, idx));
    }

    method LockWriteBuffer()
      requires Valid()
      modifies this
      ensures Valid() && Model() == GpuBumpArray.LockWriteBuffer(old(Model()))
    {
      if !fenced[writeBuffer] {
        fenced := fenced[writeBuffer := true];
        writeBuffer := (writeBuffer + 1) % |fenced|;
      }
    }

    method Reset()
      requires Valid()
      modifies this
      ensures Valid() && Model() == GpuBumpArray.Reset(old(Model()))
    {
      writeIdx := 0;
    }

    method Reinit()
      requires Valid()
      modifies this
      ensures Valid() && Model() == GpuBumpArray.Reinit(old(Model()))
    {
      WaitIdle();
      writeBuffer := 0;
      writeIdx := 0;
    }

    method Size() returns (n: nat)
      ensures n == GpuBumpArray.Size(Model())
    {
      n := writeIdx;
    }

    /** `destroy`: waits for the GPU to finish with every buffer; releasing the GPU storage is not modelled. */
    method Destroy()
      requires Valid()
      modifies this
      ensures Valid() && Model() == GpuBumpArray.WaitIdle(old(Model()))
    {
      WaitIdle();
    }
  }
}
