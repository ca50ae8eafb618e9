/**
 * The texture database (`texture::database`): three vectors kept in lockstep
 * (GL texture ids, bindless handles and name hashes), looked up by the
 * XXH64 hash (seed 100) of a file name. The hash itself is not computed:
 * callers pass the hash of the name. The GL driver state the database touches
 * is the set of live texture ids and the set of resident handles.
 */
module TextureDatabase {
  import opened Machine
  import opened Wrappers

  /** The seed every name hash uses. */
  const HASH_SEED: u64 := 100

  /** `create_data`: what creating one texture yields. */
  datatype CreateData = CreateData(id: u32, handle: u64, nameHash: u64)

  datatype TextureError = TextureHandleCreation

  /** The GL state: the textures that exist and the handles that are resident. */
  datatype Gl = Gl(textures: set<u32>, resident: set<u64>)

  datatype Database = Database(ids: seq<u32>, handles: seq<u64>, nameHashes: seq<u64>)

  predicate Inv(d: Database)
  {
    |d.ids| == |d.handles| == |d.nameHashes|
  }

  /** `make_resident`: handle 0 is ignored, and a resident handle is left alone. */
  function MakeResident(gl: Gl, handle: u64): (r: Gl)
    ensures r.textures == gl.textures
    ensures handle == 0 ==> r == gl
    ensures handle != 0 ==> r.resident == gl.resident + {handle}
  {
    if handle != 0 && handle !in gl.resident then gl.(resident := gl.resident + {handle}) else gl
  }

  /** `make_non_resident`: handle 0 is ignored, and a non-resident handle is left alone. */
  function MakeNonResident(gl: Gl, handle: u64): (r: Gl)
    ensures r.textures == gl.textures
    ensures handle == 0 ==> r == gl
    ensures handle != 0 ==> r.resident == gl.resident - {handle}
  {
    if handle != 0 && handle in gl.resident then gl.(resident := gl.resident - {handle}) else gl
  }

  /** Making a non-resident handle resident and then non-resident again restores the GL state. */
  lemma ResidencyRoundTrip(gl: Gl, handle: u64)
    requires handle !in gl.resident
    ensures MakeNonResident(MakeResident(gl, handle), handle) == gl
  {
    if handle != 0 {
      assert MakeResident(gl, handle).resident - {handle} == gl.resident;
    }
  }

  /** `destroy(id, handle)`: the handle stops being resident and the texture is deleted. */
  function DestroyTexture(gl: Gl, id: u32, handle: u64): (r: Gl)
    ensures r.textures == gl.textures - {id}
    ensures r.resident == if handle == 0 then gl.resident else gl.resident - {handle}
  {
    var g := MakeNonResident(gl, handle);
    g.(textures := g.textures - {id})
  }

  /** `destroy(create_data&)`: the texture is destroyed and the record is zeroed. */
  function DestroyData(gl: Gl, cd: CreateData): (r: (Gl, CreateData))
    ensures r.1 == CreateData(0, 0, 0) && r.0 == DestroyTexture(gl, cd.id, cd.handle)
  {
    (DestroyTexture(gl, cd.id, cd.handle), CreateData(0, 0, 0))
  }

  /**
   * `from_image` and `from_openEXR` after the texture `id` is created: a null
   * handle is an error, which leaves the created texture alive; otherwise the
   * handle is made resident when asked and the record carries the name hash.
   */
  function FromImage(gl: Gl, id: u32, handle: u64, nameHash: u64, makeResident: bool)
    : (r: (Gl, Result<CreateData, TextureError>))
    ensures r.1.Err? <==> handle == 0
    ensures r.0.textures == gl.textures + {id}
    ensures r.1.Ok? ==>
      && r.1.value == CreateData(id, handle, nameHash)
      && (makeResident ==> handle in r.0.resident) && (!makeResident ==> r.0.resident == gl.resident)
  {
    var created := gl.(textures := gl.textures + {id});
    if handle == 0 then (created, Err(TextureHandleCreation))
    else if makeResident then (MakeResident(created, handle), Ok(CreateData(id, handle, nameHash)))
    else (created, Ok(CreateData(id, handle, nameHash)))
  }

  /** `database::create`: empty vectors; the reserved capacity is not observable. */
  function Create(initialSize: nat): (r: Database)
    ensures Inv(r) && |r.ids| == 0
  {
    Database([], [], [])
  }

  /** The first index at or after `from` whose stored hash is `hash`, if any. */
  function IndexFrom(hashes: seq<u64>, hash: u64, from: nat): (r: Option<nat>)
    requires from <= |hashes|
    ensures r.None? <==> forall j :: from <= j < |hashes| ==> hashes[j] != hash
    ensures r.Some? ==>
      && from <= r.value < |hashes| && hashes[r.value] == hash
      && forall j :: from <= j < r.value ==> hashes[j] != hash
    decreases |hashes| - from
  {
    if from == |hashes| then None
    else if hashes[from] == hash then Some(from)
    else IndexFrom(hashes, hash, from + 1)
  }

  /** `find`: the handle at the first index whose name hash matches, or empty. */
  function Find(d: Database, hash: u64): (r: Option<u64>)
    requires Inv(d)
    ensures r.None? <==> hash !in d.nameHashes
    ensures r.Some? ==> exists i ::
      && 0 <= i < |d.nameHashes| && d.nameHashes[i] == hash && r.value == d.handles[i]
      && forall j :: 0 <= j < i ==> d.nameHashes[j] != hash
  {
    match IndexFrom(d.nameHashes, hash, 0)
    case None => None
    case Some(i) => Some(d.handles[i])
  }

  /** Every `(id, handle)` pair destroyed, in order. */
  function DestroyAll(gl: Gl, ids: seq<u32>, handles: seq<u64>): (r: Gl)
    requires |ids| == |handles|
    decreases |ids|
  {
    if ids == [] then gl
    else DestroyAll(DestroyTexture(gl, ids[0], handles[0]), ids[1..], handles[1..])
  }

  /** Destroying every pair deletes exactly those textures and releases exactly those nonzero handles. */
  lemma {:induction false} DestroyAllRemoves(gl: Gl, ids: seq<u32>, handles: seq<u64>)
    requires |ids| == |handles|
    ensures DestroyAll(gl, ids, handles).textures == gl.textures - set i | 0 <= i < |ids| :: ids[i]
    ensures DestroyAll(gl, ids, handles).resident == gl.resident - set i | 0 <= i < |handles| && handles[i] != 0 :: handles[i]
    decreases |ids|
  {
    if ids != [] {
      var g := DestroyTexture(gl, ids[0], handles[0]);
      DestroyAllRemoves(g, ids[1..], handles[1..]);
      var restIds := set i | 0 <= i < |ids[1..]| :: ids[1..][i];
      var allIds := set i | 0 <= i < |ids| :: ids[i];
      assert allIds == {ids[0]} + restIds by {
        forall x | x in allIds ensures x in {ids[0]} + restIds {
          var i :| 0 <= i < |ids| && ids[i] == x;
          if i > 0 { assert ids[1..][i - 1] == x; }
        }
        forall x | x in restIds ensures x in allIds {
          var i :| 0 <= i < |ids[1..]| && ids[1..][i] == x;
          assert ids[i + 1] == x;
        }
      }
      var restHandles := set i | 0 <= i < |handles[1..]| && handles[1..][i] != 0 :: handles[1..][i];
      var allHandles := set i | 0 <= i < |handles| && handles[i] != 0 :: handles[i];
      var first: set<u64> := if handles[0] != 0 then {handles[0]} else {};
      assert allHandles == first + restHandles by {
        forall x | x in allHandles ensures x in first + restHandles {
          var i :| 0 <= i < |handles| && handles[i] != 0 && handles[i] == x;
          if i > 0 { assert handles[1..][i - 1] == x; }
        }
        forall x | x in restHandles ensures x in allHandles {
          var i :| 0 <= i < |handles[1..]| && handles[1..][i] != 0 && handles[1..][i] == x;
          assert handles[i + 1] == x;
        }
      }
    }
  }

  /** `reset` (and `destroy`, which is `reset`): every stored texture destroyed, then all three vectors cleared. */
  function Reset(d: Database, gl: Gl): (r: (Database, Gl))
    requires Inv(d)
    ensures Inv(r.0) && r.0 == Create(0)
    ensures r.1.textures == gl.textures - set i | 0 <= i < |d.ids| :: d.ids[i]
    ensures r.1.resident == gl.resident - set i | 0 <= i < |d.handles| && d.handles[i] != 0 :: d.handles[i]
  {
    DestroyAllRemoves(gl, d.ids, d.handles);
    (Database([], [], []), DestroyAll(gl, d.ids, d.handles))
  }

  /**
   * `add_openEXR`: when the file loads, the texture is created as
   * `from_openEXR` does and, on success, id, handle and hash are appended
   * together; on either failure the vectors are unchanged.
   */
  function AddOpenExr(d: Database, gl: Gl, loaded: bool, id: u32, handle: u64, nameHash: u64, makeResident: bool)
    : (r: (Database, Gl))
    requires Inv(d)
    ensures Inv(r.0)
    ensures loaded && handle != 0 ==>
      r.0 == Database(d.ids + [id], d.handles + [handle], d.nameHashes + [nameHash])
    ensures !loaded || handle == 0 ==> r.0 == d
  {
    if !loaded then (d, gl)
    else
      var (g, created) := FromImage(gl, id, handle, nameHash, makeResident);
      match created
      case Ok(cd) => (Database(d.ids + [cd.id], d.handles + [cd.handle], d.nameHashes + [cd.nameHash]), g)
      case Err(_) => (d, g)
  }

  /** A texture added under a new name is found by that name; an existing name keeps its first handle. */
  lemma FindAfterAdd(d: Database, gl: Gl, id: u32, handle: u64, nameHash: u64, makeResident: bool, query: u64)
    requires Inv(d) && handle != 0
    ensures var e := AddOpenExr(d, gl, true, id, handle, nameHash, makeResident).0;
      && (query == nameHash && nameHash !in d.nameHashes ==> Find(e, query) == Some(handle))
      && (query != nameHash || nameHash in d.nameHashes ==> Find(e, query) == Find(d, query))
  {
    var e := AddOpenExr(d, gl, true, id, handle, nameHash, makeResident).0;
    var n := |d.nameHashes|;
    assert e.nameHashes[..n] == d.nameHashes && e.nameHashes[n] == nameHash;
    if query == nameHash && nameHash !in d.nameHashes {
      assert IndexFrom(e.nameHashes, query, 0) == Some(n);
    } else if query in d.nameHashes {
      var i := IndexFrom(d.nameHashes, query, 0).value;
      assert IndexFrom(e.nameHashes, query, 0) == Some(i);
    } else {
      assert query !in e.nameHashes;
    }
  }

  /** Nothing is found after a reset. */
  lemma FindAfterReset(d: Database, gl: Gl, query: u64)
    requires Inv(d)
    ensures Find(Reset(d, gl).0, query) == None
  {
  }
}

/** The database and the GL state as objects whose vectors and sets change in place. */
module TextureDatabaseClass {
  import opened Machine
  import opened Wrappers
  import opened TextureDatabase

  /** The GL driver's texture objects and resident handles. */
  class GlState {
    var textures: set<u32>
    var resident: set<u64>

    function Model(): Gl
      reads this
    {
      Gl(textures, resident)
    }

    constructor(textures0: set<u32>, resident0: set<u64>)
      ensures Model() == Gl(textures0, resident0)
    {
      textures := textures0;
      resident := resident0;
    }

    method MakeResident(handle: u64)
      modifies this
      ensures Model() == TextureDatabase.MakeResident(old(Model()), handle)
    {
      if handle != 0 && handle !in resident {
        resident := resident + {handle};
      }
    }

    method MakeNonResident(handle: u64)
      modifies this
      ensures Model() == TextureDatabase.MakeNonResident(old(Model()), handle)
    {
      if handle != 0 && handle in resident {
        resident := resident - {handle};
      }
    }

    method Destroy(id: u32, handle: u64)
      modifies this
      ensures Model() == DestroyTexture(old(Model()), id, handle)
    {
      MakeNonResident(handle);
      textures := textures - {id};
    }
  }

  class TextureDb {
    var ids: seq<u32>
    var handles: seq<u64>
    var nameHashes: seq<u64>

    function Model(): Database
      reads this
    {
      Database(ids, handles, nameHashes)
    }

    predicate Valid()
      reads this
    {
      Inv(Model())
    }

    constructor Create(initialSize: nat)
      ensures Valid() && Model() == TextureDatabase.Create(initialSize)
    {
      ids := [];
      handles := [];
      nameHashes := [];
    }

    /** `find`: a linear scan of the name hashes. */
    method Find(hash: u64) returns (r: Option<u64>)
      requires Valid()
      ensures r == TextureDatabase.Find(Model(), hash)
    {
      var i := 0;
      while i < |nameHashes|
        invariant 0 <= i <= |nameHashes|
        invariant IndexFrom(nameHashes, hash, 0) == IndexFrom(nameHashes, hash, i)
      {
        if nameHashes[i] == hash {
          return Some(handles[i]);
        }
        i := i + 1;
      }
      return None;
    }

    method Reset(gl: GlState)
      requires Valid()
      modifies this, gl
      ensures Valid() && (Model(), gl.Model()) == TextureDatabase.Reset(old(Model()), old(gl.Model()))
    {
      var i := 0;
      while i < |handles|
        invariant 0 <= i <= |handles| && Valid() && Model() == old(Model())
        invariant DestroyAll(gl.Model(), ids[i..], handles[i..]) == DestroyAll(old(gl.Model()), ids, handles)
      {
        assert ids[i..] == [ids[i]] + ids[i + 1..] && handles[i..] == [handles[i]] + handles[i + 1..];
        gl.Destroy(ids[i], handles[i]);
        i := i + 1;
      }
      ids := [];
      handles := [];
      nameHashes := [];
    }

    method AddOpenExr(gl: GlState, loaded: bool, id: u32, handle: u64, nameHash: u64, makeResident: bool)
      requires Valid()
      modifies this, gl
      ensures Valid()
      ensures (Model(), gl.Model()) == TextureDatabase.AddOpenExr(old(Model()), old(gl.Model()), loaded, id, handle, nameHash, makeResident)
    {
      if !loaded {
        return;
      }
      gl.textures := gl.textures + {id};
      if handle == 0 {
        return;
      }
      if makeResident {
        gl.MakeResident(handle);
      }
      ids := ids + [id];
      handles := handles + [handle];
      nameHashes := nameHashes + [nameHash];
    }
  }
}
