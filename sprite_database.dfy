/**
 * The sprite database of the OpenGL core: one persistently mapped GPU buffer
 * split into `buffer_redundancy` regions of `max_sprites` records. Sprites are
 * added to the region of the current write buffer; drawing submits that region
 * and, when its fence is free, fences it and moves to the next region.
 * Matrices and floating-point attributes are carried as opaque reals.
 */
module SpriteDatabase {
  import opened Machine
  import opened Wrappers

  /** `sprite_info`: texture handle, alpha, model matrix and image view. */
  datatype SpriteInfo = SpriteInfo(textureHandle: u64, alpha: real, model: seq<real>, view: seq<real>)

  /** The view a plain `add` records: the whole image. */
  const FULL_VIEW: seq<real> := [1.0, 1.0, 0.0, 0.0]

  /** `database_t`: the GPU records by global index, a fence flag per region, and the depth sprite. */
  datatype Database = Database(
    maxSprites: nat, fenced: seq<bool>, records: map<int, SpriteInfo>,
    writeIdx: nat, writeBuffer: nat,
    depthTexture: u64, depthMap: u64, depthModel: seq<real>)

  datatype DbError = InstanceAlloc | FenceAlloc | ShaderCreation

  /** What one `draw` submits. */
  datatype DrawCall = Instanced(first: nat, count: nat) | DepthSprite(texture: u64, depthMap: u64)

  predicate Inv(d: Database)
  {
    |d.fenced| > 0 && d.writeBuffer < |d.fenced| && d.writeIdx <= d.maxSprites
  }

  const IDENTITY: seq<real> := [1.0, 0.0, 0.0, 0.0, 0.0, 1.0, 0.0, 0.0, 0.0, 0.0, 1.0, 0.0, 0.0, 0.0, 0.0, 1.0]

  /**
   * `create`: the outcomes of the instance allocation, the fence-array
   * allocation and the two shader builds are parameters, in that order.
   * A redundancy of 0 is accepted, as in the program, and gives a database
   * with no region, which `Inv` does not hold of.
   */
  function Create(maxSprites: nat, redundancy: nat, instanceOk: bool, fencesOk: bool, shadersOk: bool)
    : (r: Result<Database, DbError>)
    ensures r.Ok? <==> instanceOk && fencesOk && shadersOk
    ensures !instanceOk ==> r == Err(InstanceAlloc)
    ensures instanceOk && !fencesOk ==> r == Err(FenceAlloc)
    ensures r.Ok? ==> (Inv(r.value) <==> redundancy > 0)
    ensures r.Ok? ==>
      && |r.value.fenced| == redundancy && r.value.maxSprites == maxSprites
      && r.value.writeIdx == 0 && r.value.writeBuffer == 0
      && forall i :: 0 <= i < redundancy ==> !r.value.fenced[i]
  {
    if !instanceOk then Err(InstanceAlloc)
    else if !fencesOk then Err(FenceAlloc)
    else if !shadersOk then Err(ShaderCreation)
    else Ok(Database(maxSprites, seq(redundancy, _ => false), map[], 0, 0, 0, 0, IDENTITY))
  }

  /** The global index of slot `writeIdx` in region `writeBuffer`. */
  function SlotIndex(d: Database): nat
  {
    d.writeBuffer * d.maxSprites + d.writeIdx
  }

  /** `add`/`add_view`: store the record when the region has room; otherwise ignore it. */
  function Add(d: Database, info: SpriteInfo): (r: Database)
    requires Inv(d)
    ensures Inv(r) && r.fenced == d.fenced && r.writeBuffer == d.writeBuffer
    ensures d.writeIdx >= d.maxSprites ==> r == d
    ensures d.writeIdx < d.maxSprites ==>
      r == d.(records := d.records[SlotIndex(d) := info], writeIdx := d.writeIdx + 1)
  {
    if d.writeIdx < d.maxSprites then
      d.(records := d.records[SlotIndex(d) := info], writeIdx := d.writeIdx + 1)
    else d
  }

  /** The plain `add`: a record with the full-image view. */
  function AddSprite(d: Database, textureHandle: u64, model: seq<real>, alpha: real): (r: Database)
    requires Inv(d)
    ensures r == Add(d, SpriteInfo(textureHandle, alpha, model, FULL_VIEW))
  {
    Add(d, SpriteInfo(textureHandle, alpha, model, FULL_VIEW))
  }

  /** `wait_buffer`: the region's fence, once signalled, is deleted. */
  function WaitBuffer(d: Database, i: nat): (r: Database)
    requires Inv(d) && i < |d.fenced|
    ensures Inv(r) && r == d.(fenced := d.fenced[i := false])
  {
    d.(fenced := d.fenced[i := false])
  }

  /** `begin_add`: wait on the current write region. */
  function BeginAdd(d: Database): (r: Database)
    requires Inv(d)
    ensures Inv(r) && !r.fenced[r.writeBuffer] && r == WaitBuffer(d, d.writeBuffer)
  {
    WaitBuffer(d, d.writeBuffer)
  }

  /** `wait_idle`: wait on every region. */
  function WaitIdle(d: Database): (r: Database)
    requires Inv(d)
    ensures Inv(r) && r == d.(fenced := seq(|d.fenced|, _ => false))
  {
    d.(fenced := seq(|d.fenced|, _ => false))
  }

  /** `lock_and_advance_buffer`: only an unfenced region is fenced; writing then moves to the next region, from index 0. */
  function LockAndAdvance(d: Database): (r: Database)
    requires Inv(d)
    ensures Inv(r) && r.records == d.records
    ensures d.fenced[d.writeBuffer] ==> r == d
    ensures !d.fenced[d.writeBuffer] ==>
      && r.fenced == d.fenced[d.writeBuffer := true]
      && r.writeBuffer == (d.writeBuffer + 1) % |d.fenced| && r.writeIdx == 0
  {
    if d.fenced[d.writeBuffer] then d
    else d.(fenced := d.fenced[d.writeBuffer := true],
            writeBuffer := (d.writeBuffer + 1) % |d.fenced|, writeIdx := 0)
  }

  /** `add_depth`: the depth sprite is overwritten. */
  function AddDepth(d: Database, texture: u64, depthMap: u64, model: seq<real>): (r: Database)
    ensures r == d.(depthTexture := texture, depthMap := depthMap, depthModel := model)
  {
    d.(depthTexture := texture, depthMap := depthMap, depthModel := model)
  }

  /** `draw`: the written part of the write region if non-empty (then lock and advance), then the depth sprite if both its handles are set. */
  function Draw(d: Database): (r: (Database, seq<DrawCall>))
    requires Inv(d)
    ensures Inv(r.0)
    ensures d.writeIdx == 0 ==> r.0 == d
    ensures |r.1| == (if d.writeIdx != 0 then 1 else 0) + (if d.depthTexture != 0 && d.depthMap != 0 then 1 else 0)
    ensures d.writeIdx != 0 ==> r.0 == LockAndAdvance(d) && r.1[0] == Instanced(SlotIndex(d.(writeIdx := 0)), d.writeIdx)
    ensures (DepthSprite(d.depthTexture, d.depthMap) in r.1) <==> d.depthTexture != 0 && d.depthMap != 0
  {
    var regular := if d.writeIdx != 0 then [Instanced(d.writeBuffer * d.maxSprites, d.writeIdx)] else [];
    var next := if d.writeIdx != 0 then LockAndAdvance(d) else d;
    var depth := if d.depthTexture != 0 && d.depthMap != 0 then [DepthSprite(d.depthTexture, d.depthMap)] else [];
    (next, regular + depth)
  }

  /** Every record `add` stores lies inside the current region, hence inside the `max_sprites * redundancy` buffer. */
  lemma AddStaysInRegion(d: Database, info: SpriteInfo)
    requires Inv(d) && d.writeIdx < d.maxSprites
    ensures var k := SlotIndex(d);
      d.writeBuffer * d.maxSprites <= k < (d.writeBuffer + 1) * d.maxSprites
      && k < d.maxSprites * |d.fenced|
      && Add(d, info).records[k] == info
  {
    RegionBound(d.writeBuffer, d.writeIdx, d.maxSprites, |d.fenced|);
  }

  /** A draw that submits sprites and finds the region unfenced hands the next `add` a fresh region. */
  lemma DrawMovesToNextRegion(d: Database, info: SpriteInfo)
    requires Inv(d) && d.writeIdx != 0 && !d.fenced[d.writeBuffer] && |d.fenced| > 1
    requires d.maxSprites > 0
    ensures var e := Draw(d).0;
      e.writeIdx == 0 && e.writeBuffer != d.writeBuffer && e.fenced[d.writeBuffer]
      && SlotIndex(Add(e, info).(writeIdx := 0)) != d.writeBuffer * d.maxSprites
  {
    var e := Draw(d).0;
    var n := |d.fenced|;
    if d.writeBuffer + 1 < n {
      ModUnique(d.writeBuffer + 1, n, 0, d.writeBuffer + 1);
    } else {
      ModUnique(d.writeBuffer + 1, n, 1, 0);
    }
    assert e.writeBuffer != d.writeBuffer;
    if e.writeBuffer < d.writeBuffer {
      MulMonotone(e.writeBuffer + 1, d.writeBuffer, d.maxSprites);
    } else {
      MulMonotone(d.writeBuffer + 1, e.writeBuffer, d.maxSprites);
    }
  }
}

/** The sprite database as an object its handle points to, changed in place. */
module SpriteDatabaseClass {
  import opened Machine
  import opened Wrappers
  import opened SpriteDatabase

  class SpriteDb {
    const maxSprites: nat
    var fenced: seq<bool>
    var records: map<int, SpriteInfo>
    var writeIdx: nat
    var writeBuffer: nat
    var depthTexture: u64
    var depthMap: u64
    var depthModel: seq<real>

    function Model(): Database
      reads this
    {
      Database(maxSprites, fenced, records, writeIdx, writeBuffer, depthTexture, depthMap, depthModel)
    }

    predicate Valid()
      reads this
    {
      Inv(Model())
    }

    /** A successful `create`; valid exactly when there is at least one region. */
    constructor (max: nat, redundancy: nat)
      ensures (Valid() <==> redundancy > 0) && Model() == Create(max, redundancy, true, true, true).value
    {
      maxSprites := max;
      fenced := seq(redundancy, _ => false);
      records := map[];
      writeIdx := 0;
      writeBuffer := 0;
      depthTexture := 0;
      depthMap := 0;
      depthModel := IDENTITY;
    }

    method Add(info: SpriteInfo)
      requires Valid()
      modifies this
      ensures Valid() && Model() == SpriteDatabase.Add(old(Model()), info)
    {
      if writeIdx < maxSprites {
        var idx := writeBuffer * maxSprites + writeIdx;
        records := records[idx := info];
        writeIdx := writeIdx + 1;
      }
    }

    method WaitBuffer(i: nat)
      requires Valid() && i < |fenced|
      modifies this
      ensures Valid() && Model() == SpriteDatabase.WaitBuffer(old(Model()), i)
    {
      if fenced[i] {
        fenced := fenced[i := false];
      }
    }

    method BeginAdd()
      requires Valid()
      modifies this
      ensures Valid() && Model() == SpriteDatabase.BeginAdd(old(Model()))
    {
      WaitBuffer(writeBuffer);
    }

    method WaitIdle()
      requires Valid()
      modifies this
      ensures Valid() && Model() == SpriteDatabase.WaitIdle(old(Model()))
    {
      var i := 0;
      while i < |fenced|
        invariant 0 <= i <= |fenced| && Valid()
        invariant Model() == old(Model()).(fenced := fenced) && |fenced| == |old(fenced)|
        invariant forall k :: 0 <= k < |fenced| ==> fenced[k] == (k >= i && old(fenced)[k])
      {
        WaitBuffer(i);
        i := i + 1;
      }
    }

    method LockAndAdvance()
      requires Valid()
      modifies this
      ensures Valid() && Model() == SpriteDatabase.LockAndAdvance(old(Model()))
    {
      if !fenced[writeBuffer] {
        fenced := fenced[writeBuffer := true];
        writeBuffer := (writeBuffer + 1) % |fenced|;
        writeIdx := 0;
      }
    }

    method AddDepth(texture: u64, map_: u64, model: seq<real>)
      modifies this
      ensures Model() == SpriteDatabase.AddDepth(old(Model()), texture, map_, model)
    {
      depthTexture := texture;
      depthMap := map_;
      depthModel := model;
    }

    method Draw() returns (calls: seq<DrawCall>)
      requires Valid()
      modifies this
      ensures Valid() && (Model(), calls) == SpriteDatabase.Draw(old(Model()))
    {
      var regular: seq<DrawCall> := [];
      if writeIdx != 0 {
        regular := [Instanced(writeBuffer * maxSprites, writeIdx)];
        LockAndAdvance();
      }
      var depth: seq<DrawCall> := [];
      if depthTexture != 0 && depthMap != 0 {
        depth := [DepthSprite(depthTexture, depthMap)];
      }
      calls := regular + depth;
    }

    /** `destroy`: waits for the GPU first; releasing the GPU objects is not modelled. */
    method Destroy()
      requires Valid()
      modifies this
      ensures Valid() && Model() == SpriteDatabase.WaitIdle(old(Model()))
    {
      WaitIdle();
    }
  }
}
