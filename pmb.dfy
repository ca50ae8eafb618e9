/**
 * The persistent mapped buffer (`pmb::buffer`): one mapped buffer of three
 * equal regions, written round-robin. `write_head` is a byte offset into the
 * whole buffer: `reset` puts it at the region's start and `bind_to_location`
 * binds `write_head - region.offset` bytes. The element size is a parameter.
 */
module PersistentBuffer {
  import opened Machine

  /** `buffer_view`: a byte range of the mapped buffer. */
  datatype View = View(offset: int, size: int)

  datatype Pmb<T> = Pmb(
    elemSize: nat, regions: seq<View>, fenced: seq<bool>,
    writeRegion: u8, writeHead: int, data: map<int, T>)

  predicate Inv<T>(p: Pmb<T>)
  {
    |p.regions| == 3 && |p.fenced| == 3
  }

  /** `create`: three regions of `max_elements * sizeof(T)` bytes at offsets 0, s and 2s. */
  function Create<T>(maxElements: nat, elemSize: nat): (r: Pmb<T>)
    ensures Inv(r) && r.writeRegion == 0 && r.writeHead == 0
    ensures var s := maxElements * elemSize;
      r.regions == [View(0, s), View(s, s), View(2 * s, s)]
  {
    var s := maxElements * elemSize;
    Pmb(elemSize, [View(0, s), View(s, s), View(2 * s, s)], [false, false, false], 0, 0, map[])
  }

  /** `get_write_region_view`/`get_write_region_lock`: regions 0, 1 and 2 are their own; any other value falls back to 0. */
  function RegionIndex(writeRegion: u8): (r: nat)
    ensures r < 3 && (writeRegion < 3 ==> r == writeRegion) && (writeRegion >= 3 ==> r == 0)
  {
    if writeRegion <= 2 then writeRegion else 0
  }

  function Current<T>(p: Pmb<T>): View
    requires Inv(p)
  {
    p.regions[RegionIndex(p.writeRegion)]
  }

  /** `add` as written: the region offset is added to `write_head`, which already includes it, and the end is compared with the region size. */
  function AddAsWritten<T>(p: Pmb<T>, value: T): (r: Pmb<T>)
    requires Inv(p)
    ensures Inv(r) && r.writeRegion == p.writeRegion && r.regions == p.regions && r.fenced == p.fenced
    ensures Current(p).offset + p.writeHead + p.elemSize > Current(p).size ==> r == p
    ensures Current(p).offset + p.writeHead + p.elemSize <= Current(p).size ==>
      r.writeHead == p.writeHead + p.elemSize
      && r.data == p.data[Current(p).offset + p.writeHead := value]
  {
    var view := Current(p);
    var offset := view.offset + p.writeHead;
    if offset + p.elemSize > view.size then p
    else p.(data := p.data[offset := value], writeHead := p.writeHead + p.elemSize)
  }

  /** `add` corrected: the element goes at `write_head`, and must end inside the current region. */
  function Add<T>(p: Pmb<T>, value: T): (r: Pmb<T>)
    requires Inv(p)
    ensures Inv(r) && r.writeRegion == p.writeRegion && r.regions == p.regions
    ensures p.writeHead + p.elemSize > Current(p).offset + Current(p).size ==> r == p
    ensures p.writeHead + p.elemSize <= Current(p).offset + Current(p).size ==>
      r.writeHead == p.writeHead + p.elemSize && r.data == p.data[p.writeHead := value]
  {
    var view := Current(p);
    if p.writeHead + p.elemSize > view.offset + view.size then p
    else p.(data := p.data[p.writeHead := value], writeHead := p.writeHead + p.elemSize)
  }

  /** `reset`: the head goes back to the start of the current region. */
  function Reset<T>(p: Pmb<T>): (r: Pmb<T>)
    requires Inv(p)
    ensures Inv(r) && r.writeHead == Current(p).offset && r == p.(writeHead := Current(p).offset)
  {
    p.(writeHead := Current(p).offset)
  }

  /** `lock_write_region`: fence the region (replacing any old fence), move to the next region mod 3, and reset. */
  function LockWriteRegion<T>(p: Pmb<T>): (r: Pmb<T>)
    requires Inv(p)
    ensures Inv(r) && r.fenced == p.fenced[RegionIndex(p.writeRegion) := true]
    ensures r.writeRegion == (p.writeRegion + 1) % 3 && r.writeHead == Current(r).offset
  {
    var q := p.(fenced := p.fenced[RegionIndex(p.writeRegion) := true], writeRegion := (p.writeRegion + 1) % 3);
    Reset(q)
  }

  /** `bind_to_location`: the bytes written so far in the current region. */
  function BoundRange<T>(p: Pmb<T>): (r: View)
    requires Inv(p)
    ensures r.offset == Current(p).offset && r.offset + r.size == p.writeHead
  {
    View(Current(p).offset, p.writeHead - Current(p).offset)
  }

  /**
   * With the corrected `add`, after a reset of region `k` holding `max`
   * elements, the `j`-th element (`j < max`) is accepted, stored inside
   * the region, and the bound range grows by one element.
   */
  lemma {:induction false} AddFillsRegion<T>(maxElements: nat, p: Pmb<T>, j: nat, value: T)
    requires Inv(p) && p.writeRegion < 3 && p.elemSize > 0
    requires p.regions == Create<T>(maxElements, p.elemSize).regions
    requires j < maxElements && p.writeHead == Current(p).offset + j * p.elemSize
    ensures var r := Add(p, value);
      r.writeHead == Current(p).offset + (j + 1) * p.elemSize
      && Current(p).offset <= p.writeHead && p.writeHead + p.elemSize <= Current(p).offset + Current(p).size
      && r.data[p.writeHead] == value
      && BoundRange(r).size == (j + 1) * p.elemSize
  {
    var s := maxElements * p.elemSize;
    assert Current(p).size == s;
    assert (j + 1) * p.elemSize == j * p.elemSize + p.elemSize;
    MulMonotone(j + 1, maxElements, p.elemSize);
  }

  /** With the corrected `add`, once a region holds `max` elements the next one is refused. */
  lemma FullRegionRefuses<T>(maxElements: nat, p: Pmb<T>, value: T)
    requires Inv(p) && p.writeRegion < 3 && p.elemSize > 0
    requires p.regions == Create<T>(maxElements, p.elemSize).regions
    requires p.writeHead == Current(p).offset + maxElements * p.elemSize
    ensures Add(p, value) == p
  {
  }

  /**
   * Counterexample: a buffer of 4 elements of 8 bytes; after one
   * `lock_write_region` the head is at 32, the start of region 1, and the
   * as-written `add` computes offset 64 and refuses the element, as it does
   * for every later element in regions 1 and 2.
   */
  lemma AddAsWrittenRefusesRegionOne(value: int)
    ensures var p := LockWriteRegion(Create<int>(4, 8));
      p.writeRegion == 1 && p.writeHead == 32 && AddAsWritten(p, value) == p
  {
  }
}

/** The buffer as an object whose fences, region and head change in place. */
module PersistentBufferClass {
  import opened Machine
  import opened PersistentBuffer

  class MappedBuffer<T> {
    const elemSize: nat
    const regions: seq<View>
    var fenced: seq<bool>
    var writeRegion: u8
    var writeHead: int
    var data: map<int, T>

    function Model(): Pmb<T>
      reads this
    {
      Pmb(elemSize, regions, fenced, writeRegion, writeHead, data)
    }

    predicate Valid()
      reads this
    {
      Inv(Model())
    }

    constructor Create(maxElements: nat, size: nat)
      ensures Valid() && Model() == PersistentBuffer.Create(maxElements, size)
    {
      elemSize := size;
      var s := maxElements * size;
      regions := [View(0, s), View(s, s), View(2 * s, s)];
      fenced := [false, false, false];
      writeRegion := 0;
      writeHead := 0;
      data := map[];
    }

    method Add(value: T)
      requires Valid()
      modifies this
      ensures Valid() && Model() == PersistentBuffer.Add(old(Model()), value)
    {
      var view := regions[RegionIndex(writeRegion)];
      if writeHead + elemSize > view.offset + view.size {
        return;
      }
      data := data[writeHead := value];
      writeHead := writeHead + elemSize;
    }

    method Reset()
      requires Valid()
      modifies this
      ensures Valid() && Model() == PersistentBuffer.Reset(old(Model()))
    {
      match writeRegion
      case 0 => writeHead := regions[0].offset;
      case 1 => writeHead := regions[1].offset;
      case 2 => writeHead := regions[2].offset;
      case _ => writeHead := regions[0].offset;
    }

    method LockWriteRegion()
      requires Valid()
      modifies this
      ensures Valid() && Model() == PersistentBuffer.LockWriteRegion(old(Model()))
    {
      fenced := fenced[RegionIndex(writeRegion) := true];
      writeRegion := (writeRegion + 1) % 3;
      Reset();
    }
  }
}
