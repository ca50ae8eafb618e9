/**
 * The sprite batch of the OpenGL core (`gl_atom::sprite::database`): four GPU
 * bump arrays (texture handles, model matrices, image views and alphas) that
 * every operation pushes, resets and locks together, plus one depth sprite.
 * Matrices are sequences of 16 reals in column-major order.
 */
module SpriteBatch {
  import opened Machine
  import opened Wrappers
  import opened GpuBumpArray
  import SpriteDatabase

  /** The default number of buffers of a `gba`. */
  const REDUNDANCY: nat := 3

  /** Two bump arrays that have taken the same pushes, resets and locks. */
  predicate InStep<A, B>(g: Gba<A>, h: Gba<B>)
  {
    Inv(g) && Inv(h) && g.capacity == h.capacity && g.writeIdx == h.writeIdx
    && g.writeBuffer == h.writeBuffer && g.fenced == h.fenced
  }

  datatype Batch = Batch(
    handles: Gba<u64>, models: Gba<seq<real>>, views: Gba<seq<real>>, alphas: Gba<real>,
    depthTexture: u64, depthMap: u64, depthModel: seq<real>)

  /** The four arrays move together. */
  predicate Lockstep(b: Batch)
  {
    InStep(b.handles, b.models) && InStep(b.handles, b.views) && InStep(b.handles, b.alphas)
  }

  /** The element at `idx` of the write buffer of `g`, when it has been written. */
  predicate Holds<T(==)>(g: Gba<T>, idx: int, value: T)
  {
    g.writeBuffer < |g.contents| && idx in g.contents[g.writeBuffer] && g.contents[g.writeBuffer][idx] == value
  }

  /** `create`: fails with the shader error when either shader program does not build. */
  function Create(maxSprites: nat, spriteShaderOk: bool, deepShaderOk: bool): (r: Result<Batch, SpriteDatabase.DbError>)
    ensures r.Err? <==> !spriteShaderOk || !deepShaderOk
    ensures r.Err? ==> r.error == SpriteDatabase.ShaderCreation
    ensures r.Ok? ==>
      && Lockstep(r.value) && Size(r.value.models) == 0 && r.value.handles.capacity == maxSprites
      && |r.value.handles.fenced| == REDUNDANCY && r.value.depthTexture == 0 && r.value.depthMap == 0
  {
    if !spriteShaderOk || !deepShaderOk then Err(SpriteDatabase.ShaderCreation)
    else Ok(Batch(GpuBumpArray.Create(maxSprites, REDUNDANCY), GpuBumpArray.Create(maxSprites, REDUNDANCY),
                  GpuBumpArray.Create(maxSprites, REDUNDANCY), GpuBumpArray.Create(maxSprites, REDUNDANCY),
                  0, 0, SpriteDatabase.IDENTITY))
  }

  /** A push is allowed: debug builds ignore a push at capacity, other builds must stay below it. */
  predicate CanAdd(b: Batch, debug: bool)
  {
    !debug ==> b.handles.writeIdx < b.handles.capacity
  }

  /** `add`: one entry to each array, with the whole image as view. */
  function Add(b: Batch, handle: u64, model: seq<real>, alpha: real, debug: bool): (r: Batch)
    requires Lockstep(b) && CanAdd(b, debug)
    ensures Lockstep(r) && r.depthTexture == b.depthTexture && r.depthMap == b.depthMap
    ensures r.handles.capacity == b.handles.capacity && r.models.writeBuffer == b.models.writeBuffer
    ensures b.handles.writeIdx == b.handles.capacity ==> r == b
    ensures b.handles.writeIdx < b.handles.capacity ==>
      && Size(r.models) == Size(b.models) + 1
      && Holds(r.handles, Size(b.handles), handle) && Holds(r.models, Size(b.models), model)
      && Holds(r.views, Size(b.views), SpriteDatabase.FULL_VIEW) && Holds(r.alphas, Size(b.alphas), alpha)
  {
    b.(handles := Push(b.handles, handle, debug), models := Push(b.models, model, debug),
       views := Push(b.views, SpriteDatabase.FULL_VIEW, debug), alphas := Push(b.alphas, alpha, debug))
  }

  /** `add_depth`: the single depth sprite is replaced. */
  function AddDepth(b: Batch, texture: u64, depthMap: u64, model: seq<real>): (r: Batch)
    ensures r == b.(depthTexture := texture, depthMap := depthMap, depthModel := model)
  {
    b.(depthTexture := texture, depthMap := depthMap, depthModel := model)
  }

  /** `reset`: no depth sprite, and all four arrays emptied. */
  function Reset(b: Batch): (r: Batch)
    requires Lockstep(b)
    ensures Lockstep(r) && Size(r.handles) == 0 && r.depthTexture == 0 && r.depthMap == 0
    ensures r.depthModel == SpriteDatabase.IDENTITY && r.models.writeBuffer == b.models.writeBuffer
    ensures r.handles.contents == b.handles.contents && r.models.contents == b.models.contents
  {
    Batch(GpuBumpArray.Reset(b.handles), GpuBumpArray.Reset(b.models), GpuBumpArray.Reset(b.views),
          GpuBumpArray.Reset(b.alphas), 0, 0, SpriteDatabase.IDENTITY)
  }

  /** `reinit`: as `reset`, but every array also waits for its fences and restarts at buffer 0. */
  function Reinit(b: Batch): (r: Batch)
    requires Lockstep(b)
    ensures Lockstep(r) && Size(r.handles) == 0 && r.depthTexture == 0 && r.depthMap == 0
    ensures r.depthModel == SpriteDatabase.IDENTITY && Fresh(r.handles)
  {
    Batch(GpuBumpArray.Reinit(b.handles), GpuBumpArray.Reinit(b.models), GpuBumpArray.Reinit(b.views),
          GpuBumpArray.Reinit(b.alphas), 0, 0, SpriteDatabase.IDENTITY)
  }

  /** Each array locked once, in the order the draw locks them. */
  function LockAll(b: Batch): (r: Batch)
    requires Lockstep(b)
    ensures Lockstep(r)
  {
    b.(handles := LockWriteBuffer(b.handles), models := LockWriteBuffer(b.models),
       views := LockWriteBuffer(b.views), alphas := LockWriteBuffer(b.alphas))
  }

  /**
   * `draw`: the instanced draw and the locks happen only when all four
   * arrays are non-empty; the depth sprite only when both its handles are
   * nonzero. In lockstep, the four sizes are one.
   */
  function Draw(b: Batch): (r: (Batch, seq<SpriteDatabase.DrawCall>))
    requires Lockstep(b)
    ensures Lockstep(r.0)
    ensures Size(b.models) == 0 ==> r.0 == b
    ensures |r.1| == (if Size(b.models) != 0 then 1 else 0) + (if b.depthTexture != 0 && b.depthMap != 0 then 1 else 0)
    ensures Size(b.models) != 0 ==> r.0 == LockAll(b) && r.1[0] == SpriteDatabase.Instanced(0, Size(b.models))
    ensures (SpriteDatabase.DepthSprite(b.depthTexture, b.depthMap) in r.1) <==> b.depthTexture != 0 && b.depthMap != 0
  {
    var drawn := Size(b.handles) != 0 && Size(b.models) != 0 && Size(b.alphas) != 0 && Size(b.views) != 0;
    var regular := if drawn then [SpriteDatabase.Instanced(0, Size(b.models))] else [];
    var depth := if b.depthTexture != 0 && b.depthMap != 0 then [SpriteDatabase.DepthSprite(b.depthTexture, b.depthMap)] else [];
    (if drawn then LockAll(b) else b, regular + depth)
  }

  /** `glm::translate(m, v)`: the fourth column becomes `m * (v, 1)`. */
  function TranslateMatrix(m: seq<real>, v: seq<real>): (r: seq<real>)
    requires |m| == 16 && |v| == 3
    ensures |r| == 16 && r[..12] == m[..12]
  {
    m[..12] + seq(4, row requires 0 <= row < 4 => m[row] * v[0] + m[4 + row] * v[1] + m[8 + row] * v[2] + m[12 + row])
  }

  /** The model at `idx` can be dereferenced: in release builds the slot must hold a written matrix. */
  predicate Addressable(b: Batch, idx: nat, debug: bool)
    requires Lockstep(b)
  {
    GetElmPtr(b.models, idx, debug).Some? ==>
      idx in b.models.contents[b.models.writeBuffer] && |b.models.contents[b.models.writeBuffer][idx]| == 16
  }

  /** `translate`: debug builds ignore an index past `size()`; otherwise the model there is translated in place. */
  function Translate(b: Batch, idx: nat, dir: seq<real>, debug: bool): (r: Batch)
    requires Lockstep(b) && |dir| == 3 && Addressable(b, idx, debug)
    ensures Lockstep(r) && Addressable(r, idx, debug)
    ensures debug && idx >= Size(b.models) ==> r == b
  {
    match GetElmPtr(b.models, idx, debug)
    case None => b
    case Some(slot) =>
      var buffer := b.models.contents[slot.buffer];
      b.(models := b.models.(contents := b.models.contents[slot.buffer := buffer[slot.index := TranslateMatrix(buffer[slot.index], dir)]]))
  }

  /** `get_pos`: the translation column of the model at `idx`, or the origin when a debug build bails out. */
  function GetPos(b: Batch, idx: nat, debug: bool): (r: seq<real>)
    requires Lockstep(b) && Addressable(b, idx, debug)
    ensures |r| == 3
    ensures debug && idx >= Size(b.models) ==> r == [0.0, 0.0, 0.0]
  {
    match GetElmPtr(b.models, idx, debug)
    case None => [0.0, 0.0, 0.0]
    case Some(slot) =>
      var m := b.models.contents[slot.buffer][slot.index];
      [m[12], m[13], m[14]]
  }

  /** A model whose linear part is the identity is moved by exactly `dir`, and no other model changes. */
  lemma TranslateMovesPosition(b: Batch, idx: nat, dir: seq<real>, debug: bool)
    requires Lockstep(b) && |dir| == 3 && Addressable(b, idx, debug) && !(debug && idx >= Size(b.models))
    requires b.models.contents[b.models.writeBuffer][idx][..12] == SpriteDatabase.IDENTITY[..12]
    ensures var p := GetPos(b, idx, debug);
      GetPos(Translate(b, idx, dir, debug), idx, debug) == [p[0] + dir[0], p[1] + dir[1], p[2] + dir[2]]
    ensures forall k :: k in b.models.contents[b.models.writeBuffer] && k != idx ==>
      Holds(Translate(b, idx, dir, debug).models, k, b.models.contents[b.models.writeBuffer][k])
  {
    var w := b.models.writeBuffer;
    var m := b.models.contents[w][idx];
    TranslateIdentityColumn(m, dir);
    assert Translate(b, idx, dir, debug).models.contents[w] == b.models.contents[w][idx := TranslateMatrix(m, dir)];
  }

  /** With an identity linear part, `glm::translate` adds `v` to the translation column. */
  lemma TranslateIdentityColumn(m: seq<real>, v: seq<real>)
    requires |m| == 16 && |v| == 3 && m[..12] == SpriteDatabase.IDENTITY[..12]
    ensures var r := TranslateMatrix(m, v);
      r[12] == m[12] + v[0] && r[13] == m[13] + v[1] && r[14] == m[14] + v[2]
  {
    var linear := m[..12];
    assert linear == [1.0, 0.0, 0.0, 0.0, 0.0, 1.0, 0.0, 0.0, 0.0, 0.0, 1.0, 0.0];
    assert linear[0] == m[0] && linear[1] == m[1] && linear[2] == m[2];
    assert linear[4] == m[4] && linear[5] == m[5] && linear[6] == m[6];
    assert linear[8] == m[8] && linear[9] == m[9] && linear[10] == m[10];
  }

  /** One sprite to `add`: handle, model and alpha. */
  datatype Sprite = Sprite(handle: u64, model: seq<real>, alpha: real)

  /** The sprites added one after another. */
  function AddAll(b: Batch, sprites: seq<Sprite>, debug: bool): (r: Batch)
    requires Lockstep(b) && Size(b.handles) + |sprites| <= b.handles.capacity
    ensures Lockstep(r) && r.handles.capacity == b.handles.capacity
    ensures Size(r.models) == Size(b.models) + |sprites| && r.models.writeBuffer == b.models.writeBuffer
    decreases |sprites|
  {
    if sprites == [] then b
    else
      var front := AddAll(b, sprites[..|sprites| - 1], debug);
      var s := sprites[|sprites| - 1];
      if CanAdd(front, debug) then Add(front, s.handle, s.model, s.alpha, debug) else front
  }

  /** Sprite `sp` is stored at index `i` of all four write buffers. */
  predicate StoredAt(b: Batch, i: int, sp: Sprite)
  {
    Holds(b.handles, i, sp.handle) && Holds(b.models, i, sp.model)
    && Holds(b.views, i, SpriteDatabase.FULL_VIEW) && Holds(b.alphas, i, sp.alpha)
  }

  /** Sprite `k` of `sprites` is stored at index `n + k`, for every `k`. */
  predicate StoredFrom(b: Batch, n: int, sprites: seq<Sprite>)
  {
    forall k :: 0 <= k < |sprites| ==> StoredAt(b, n + k, sprites[k])
  }

  /** An `add` that fits leaves every other stored sprite in place. */
  lemma AddKeepsStored(b: Batch, s: Sprite, debug: bool, i: int, sp: Sprite)
    requires Lockstep(b) && CanAdd(b, debug) && StoredAt(b, i, sp) && i != Size(b.models)
    ensures StoredAt(Add(b, s.handle, s.model, s.alpha, debug), i, sp)
  {
  }

  /** An `add` that fits stores the sprite at the old size of all four arrays. */
  lemma AddStoresNew(b: Batch, s: Sprite, debug: bool)
    requires Lockstep(b) && b.handles.writeIdx < b.handles.capacity
    ensures var r := Add(b, s.handle, s.model, s.alpha, debug);
      StoredAt(r, Size(b.models), s) && Size(r.models) == Size(b.models) + 1
  {
  }

  /** An `add` after sprites stored from index `n` on stores one more. */
  lemma AddExtendsStored(n: nat, front: Batch, sprites: seq<Sprite>, debug: bool)
    requires Lockstep(front) && front.handles.writeIdx < front.handles.capacity
    requires |sprites| > 0 && Size(front.models) == n + |sprites| - 1
    requires StoredFrom(front, n, sprites[..|sprites| - 1])
    ensures var s := sprites[|sprites| - 1];
      StoredFrom(Add(front, s.handle, s.model, s.alpha, debug), n, sprites)
  {
    var s := sprites[|sprites| - 1];
    var r := Add(front, s.handle, s.model, s.alpha, debug);
    AddStoresNew(front, s, debug);
    var init := sprites[..|sprites| - 1];
    forall k | 0 <= k < |sprites| - 1
      ensures StoredAt(r, n + k, sprites[k])
    {
      assert init[k] == sprites[k];
      AddKeepsStored(front, s, debug, n + k, sprites[k]);
    }
  }

  /**
   * Adding sprites that fit stores the `k`-th one at `size() + k` in all four
   * arrays, so the next draw submits all of them in one instanced call.
   */
  lemma {:induction false} AddAllStoresInOrder(b: Batch, sprites: seq<Sprite>, debug: bool)
    requires Lockstep(b) && Size(b.handles) + |sprites| <= b.handles.capacity
    ensures StoredFrom(AddAll(b, sprites, debug), Size(b.models), sprites)
    decreases |sprites|
  {
    if sprites != [] {
      var init := sprites[..|sprites| - 1];
      AddAllStoresInOrder(b, init, debug);
      AddAllStep(b, sprites, debug);
    }
  }

  /** The inductive step: what holds of all but the last sprite extends to all of them. */
  lemma AddAllStep(b: Batch, sprites: seq<Sprite>, debug: bool)
    requires Lockstep(b) && Size(b.handles) + |sprites| <= b.handles.capacity && sprites != []
    requires StoredFrom(AddAll(b, sprites[..|sprites| - 1], debug), Size(b.models), sprites[..|sprites| - 1])
    ensures StoredFrom(AddAll(b, sprites, debug), Size(b.models), sprites)
  {
    AddAllLast(b, sprites, debug);
    var front := AddAll(b, sprites[..|sprites| - 1], debug);
    AddExtendsStored(Size(b.models), front, sprites, debug);
  }

  /** The last sprite of a nonempty run that fits is one `add` after the others. */
  lemma AddAllLast(b: Batch, sprites: seq<Sprite>, debug: bool)
    requires Lockstep(b) && Size(b.handles) + |sprites| <= b.handles.capacity && sprites != []
    ensures var front := AddAll(b, sprites[..|sprites| - 1], debug);
      var s := sprites[|sprites| - 1];
      && front.handles.writeIdx < front.handles.capacity
      && AddAll(b, sprites, debug) == Add(front, s.handle, s.model, s.alpha, debug)
  {
  }

  /** After a reset and `n > 0` fitting adds, a draw submits exactly `n` instances. */
  lemma DrawAfterAdds(b: Batch, sprites: seq<Sprite>, debug: bool)
    requires Lockstep(b) && 0 < |sprites| <= b.handles.capacity
    ensures var r := AddAll(Reset(b), sprites, debug);
      Draw(r).1[0] == SpriteDatabase.Instanced(0, |sprites|)
  {
    AddAllStoresInOrder(Reset(b), sprites, debug);
  }
}

/**
 * The sprite batch of the player (`atom::sprite::database`): the same scheme
 * with three arrays (texture handles, models and alphas) and no depth sprite.
 */
module PlayerSpriteBatch {
  import opened Machine
  import opened GpuBumpArray
  import SpriteDatabase
  import opened SpriteBatch

  datatype Batch3 = Batch3(handles: Gba<u64>, models: Gba<seq<real>>, alphas: Gba<real>)

  predicate Lockstep3(b: Batch3)
  {
    InStep(b.handles, b.models) && InStep(b.handles, b.alphas)
  }

  /** `create`: three empty arrays of `max_sprites` elements. */
  function Create(maxSprites: nat): (r: Batch3)
    ensures Lockstep3(r) && Size(r.handles) == 0 && r.handles.capacity == maxSprites && Fresh(r.models)
  {
    Batch3(GpuBumpArray.Create(maxSprites, REDUNDANCY), GpuBumpArray.Create(maxSprites, REDUNDANCY),
           GpuBumpArray.Create(maxSprites, REDUNDANCY))
  }

  /** `add`: one entry to each of the three arrays. */
  function Add(b: Batch3, handle: u64, model: seq<real>, alpha: real, debug: bool): (r: Batch3)
    requires Lockstep3(b) && (!debug ==> b.handles.writeIdx < b.handles.capacity)
    ensures Lockstep3(r)
    ensures b.handles.writeIdx == b.handles.capacity ==> r == b
    ensures b.handles.writeIdx < b.handles.capacity ==>
      && Size(r.models) == Size(b.models) + 1
      && Holds(r.handles, Size(b.handles), handle) && Holds(r.models, Size(b.models), model)
      && Holds(r.alphas, Size(b.alphas), alpha)
  {
    Batch3(Push(b.handles, handle, debug), Push(b.models, model, debug), Push(b.alphas, alpha, debug))
  }

  /** `reset`: all three arrays emptied, their buffers and fences kept. */
  function Reset(b: Batch3): (r: Batch3)
    requires Lockstep3(b)
    ensures Lockstep3(r) && Size(r.handles) == 0 && r.models.writeBuffer == b.models.writeBuffer
    ensures r.models.fenced == b.models.fenced && r.models.contents == b.models.contents
  {
    Batch3(GpuBumpArray.Reset(b.handles), GpuBumpArray.Reset(b.models), GpuBumpArray.Reset(b.alphas))
  }

  /** `draw`: one instanced call and a lock of each array, only when all three are non-empty. */
  function Draw(b: Batch3): (r: (Batch3, seq<SpriteDatabase.DrawCall>))
    requires Lockstep3(b)
    ensures Lockstep3(r.0)
    ensures Size(b.models) == 0 <==> r.1 == []
    ensures Size(b.models) == 0 ==> r.0 == b
    ensures Size(b.models) != 0 ==>
      r.1 == [SpriteDatabase.Instanced(0, Size(b.models))] && r.0.models == LockWriteBuffer(b.models)
      && r.0.handles == LockWriteBuffer(b.handles) && r.0.alphas == LockWriteBuffer(b.alphas)
  {
    if Size(b.handles) != 0 && Size(b.models) != 0 && Size(b.alphas) != 0 then
      (Batch3(LockWriteBuffer(b.handles), LockWriteBuffer(b.models), LockWriteBuffer(b.alphas)),
       [SpriteDatabase.Instanced(0, Size(b.models))])
    else (b, [])
  }

  /** A frame of the player: an unfenced write buffer with sprites is drawn and the next frame writes to another buffer. */
  lemma DrawThenResetMovesOn(b: Batch3)
    requires Lockstep3(b) && Size(b.models) != 0 && !b.models.fenced[b.models.writeBuffer]
    ensures var r := Reset(Draw(b).0);
      Size(r.models) == 0 && r.models.fenced[b.models.writeBuffer]
      && r.models.writeBuffer == (b.models.writeBuffer + 1) % |b.models.fenced|
  {
  }
}

/** The two sprite batches as objects that own their bump arrays and change them in place. */
module SpriteBatchClass {
  import opened Machine
  import opened Wrappers
  import opened GpuBumpArray
  import opened GpuBumpArrayClass
  import SpriteDatabase
  import opened SpriteBatch
  import PlayerSpriteBatch

  class SpriteBatcher {
    const handles: BumpArray<u64>
    const models: BumpArray<seq<real>>
    const views: BumpArray<seq<real>>
    const alphas: BumpArray<real>
    var depthTexture: u64
    var depthMap: u64
    var depthModel: seq<real>

    function Model(): Batch
      reads this, handles, models, views, alphas
    {
      Batch(handles.Model(), models.Model(), views.Model(), alphas.Model(), depthTexture, depthMap, depthModel)
    }

    /** The four arrays are distinct objects of one build type, in lockstep. */
    predicate Valid()
      reads this, handles, models, views, alphas
    {
      models != views && Lockstep(Model())
      && models.debug == handles.debug && views.debug == handles.debug && alphas.debug == handles.debug
    }

    constructor Init(maxSprites: nat, debug: bool)
      ensures Valid() && handles.debug == debug
      ensures Model() == SpriteBatch.Create(maxSprites, true, true).value
    {
      handles := new BumpArray.Create(maxSprites, REDUNDANCY, debug);
      models := new BumpArray.Create(maxSprites, REDUNDANCY, debug);
      views := new BumpArray.Create(maxSprites, REDUNDANCY, debug);
      alphas := new BumpArray.Create(maxSprites, REDUNDANCY, debug);
      depthTexture := 0;
      depthMap := 0;
      depthModel := SpriteDatabase.IDENTITY;
    }

    /** `create`: the shader builds are parameters; either failing gives the shader error. */
    static method Create(maxSprites: nat, spriteShaderOk: bool, deepShaderOk: bool, debug: bool)
      returns (r: Result<SpriteBatcher, SpriteDatabase.DbError>)
      ensures r.Err? <==> SpriteBatch.Create(maxSprites, spriteShaderOk, deepShaderOk).Err?
      ensures r.Err? ==> r.error == SpriteBatch.Create(maxSprites, spriteShaderOk, deepShaderOk).error
      ensures r.Ok? ==>
        && fresh(r.value) && r.value.Valid()
        && r.value.Model() == SpriteBatch.Create(maxSprites, spriteShaderOk, deepShaderOk).value
    {
      if !spriteShaderOk || !deepShaderOk {
        return Err(SpriteDatabase.ShaderCreation);
      }
      var b := new SpriteBatcher.Init(maxSprites, debug);
      r := Ok(b);
    }

    method Add(handle: u64, model: seq<real>, alpha: real)
      requires Valid() && CanAdd(Model(), handles.debug)
      modifies handles, models, views, alphas
      ensures Valid() && Model() == SpriteBatch.Add(old(Model()), handle, model, alpha, handles.debug)
    {
      handles.Push(handle);
      models.Push(model);
      views.Push(SpriteDatabase.FULL_VIEW);
      alphas.Push(alpha);
    }

    method AddDepth(texture: u64, map_: u64, model: seq<real>)
      requires Valid()
      modifies this
      ensures Valid() && Model() == SpriteBatch.AddDepth(old(Model()), texture, map_, model)
    {
      depthTexture := texture;
      depthMap := map_;
      depthModel := model;
    }

    method Reset()
      requires Valid()
      modifies this, handles, models, views, alphas
      ensures Valid() && Model() == SpriteBatch.Reset(old(Model()))
    {
      depthTexture := 0;
      depthMap := 0;
      depthModel := SpriteDatabase.IDENTITY;
      handles.Reset();
      models.Reset();
      views.Reset();
      alphas.Reset();
    }

    method Reinit()
      requires Valid()
      modifies this, handles, models, views, alphas
      ensures Valid() && Model() == SpriteBatch.Reinit(old(Model()))
    {
      depthTexture := 0;
      depthMap := 0;
      depthModel := SpriteDatabase.IDENTITY;
      handles.Reinit();
      models.Reinit();
      views.Reinit();
      alphas.Reinit();
    }

    method Draw() returns (calls: seq<SpriteDatabase.DrawCall>)
      requires Valid()
      modifies handles, models, views, alphas
      ensures Valid() && (Model(), calls) == SpriteBatch.Draw(old(Model()))
    {
      ghost var b := Model();
      var nh := handles.Size();
      var nm := models.Size();
      var na := alphas.Size();
      var nv := views.Size();
      var regular: seq<SpriteDatabase.DrawCall> := [];
      if nh != 0 && nm != 0 && na != 0 && nv != 0 {
        regular := [SpriteDatabase.Instanced(0, nm)];
        handles.LockWriteBuffer();
        models.LockWriteBuffer();
        assert models.Model() == LockWriteBuffer(b.models) && handles.Model() == LockWriteBuffer(b.handles);
        views.LockWriteBuffer();
        alphas.LockWriteBuffer();
        assert Model() == LockAll(b);
      }
      var depth: seq<SpriteDatabase.DrawCall> := [];
      if depthTexture != 0 && depthMap != 0 {
        depth := [SpriteDatabase.DepthSprite(depthTexture, depthMap)];
      }
      calls := regular + depth;
    }

    method Translate(idx: nat, dir: seq<real>)
      requires Valid() && |dir| == 3 && Addressable(Model(), idx, handles.debug)
      modifies models
      ensures Valid() && Model() == SpriteBatch.Translate(old(Model()), idx, dir, handles.debug)
    {
      var elm := models.GetElmPtr(idx);
      if elm.None? {
        return;
      }
      var slot := elm.value;
      var buffer := models.contents[slot.buffer];
      models.contents := models.contents[slot.buffer := buffer[slot.index := TranslateMatrix(buffer[slot.index], dir)]];
    }

    method GetPos(idx: nat) returns (pos: seq<real>)
      requires Valid() && Addressable(Model(), idx, handles.debug)
      ensures pos == SpriteBatch.GetPos(Model(), idx, handles.debug)
    {
      var elm := models.GetElmPtr(idx);
      if elm.None? {
        return [0.0, 0.0, 0.0];
      }
      var m := models.contents[elm.value.buffer][elm.value.index];
      pos := [m[12], m[13], m[14]];
    }

    /** `destroy`: each array waits for the GPU; releasing the GL objects is not modelled. */
    method Destroy()
      requires Valid()
      modifies handles, models, views, alphas
      ensures Valid()
      ensures handles.Model() == WaitIdle(old(handles.Model())) && models.Model() == WaitIdle(old(models.Model()))
      ensures views.Model() == WaitIdle(old(views.Model())) && alphas.Model() == WaitIdle(old(alphas.Model()))
    {
      alphas.Destroy();
      views.Destroy();
      models.Destroy();
      handles.Destroy();
    }
  }

  class PlayerSpriteBatcher {
    const handles: BumpArray<u64>
    const models: BumpArray<seq<real>>
    const alphas: BumpArray<real>

    function Model(): PlayerSpriteBatch.Batch3
      reads handles, models, alphas
    {
      PlayerSpriteBatch.Batch3(handles.Model(), models.Model(), alphas.Model())
    }

    predicate Valid()
      reads this, handles, models, alphas
    {
      PlayerSpriteBatch.Lockstep3(Model()) && models.debug == handles.debug && alphas.debug == handles.debug
    }

    constructor Create(maxSprites: nat, debug: bool)
      ensures Valid() && handles.debug == debug && Model() == PlayerSpriteBatch.Create(maxSprites)
    {
      handles := new BumpArray.Create(maxSprites, REDUNDANCY, debug);
      models := new BumpArray.Create(maxSprites, REDUNDANCY, debug);
      alphas := new BumpArray.Create(maxSprites, REDUNDANCY, debug);
    }

    method Add(handle: u64, model: seq<real>, alpha: real)
      requires Valid() && (!handles.debug ==> handles.writeIdx < handles.capacity)
      modifies handles, models, alphas
      ensures Valid() && Model() == PlayerSpriteBatch.Add(old(Model()), handle, model, alpha, handles.debug)
    {
      handles.Push(handle);
      models.Push(model);
      alphas.Push(alpha);
    }

    method Reset()
      requires Valid()
      modifies handles, models, alphas
      ensures Valid() && Model() == PlayerSpriteBatch.Reset(old(Model()))
    {
      handles.Reset();
      models.Reset();
      alphas.Reset();
    }

    method Draw() returns (calls: seq<SpriteDatabase.DrawCall>)
      requires Valid()
      modifies handles, models, alphas
      ensures Valid() && (Model(), calls) == PlayerSpriteBatch.Draw(old(Model()))
    {
      var nh := handles.Size();
      var nm := models.Size();
      var na := alphas.Size();
      calls := [];
      if nh != 0 && nm != 0 && na != 0 {
        calls := [SpriteDatabase.Instanced(0, nm)];
        handles.LockWriteBuffer();
        alphas.LockWriteBuffer();
        models.LockWriteBuffer();
      }
    }
  }
}
