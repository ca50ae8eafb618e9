/**
 * The DTU module's own entry points of DTU.cpp: the loaded-texture and
 * sprite draw lists kept as parallel vectors, the global two-slot state
 * machine whose routines report no errors, its names, and the exit status
 * of update. Image loading and texture creation are inputs: whether the
 * image loaded, and the (id, handle) pair texture creation gave, if any.
 */
module DtuModule {
  import opened Machine
  import opened Wrappers
  import opened DtuStates
  import DtuStateMachine

  /** Loaded textures: names and bindless handles in lockstep. */
  datatype Textures = Textures(ids: seq<u32>, handles: seq<u64>)

  /** A sprite draw list: handle, model matrix and alpha in lockstep. */
  datatype Sprites = Sprites(handles: seq<u64>, models: seq<seq<real>>, alphas: seq<real>)

  predicate TexturesInv(t: Textures)
  {
    |t.ids| == |t.handles|
  }

  predicate SpritesInv(s: Sprites)
  {
    |s.handles| == |s.models| == |s.alphas|
  }

  /** load_texture: nothing when the image does not load; (0, 0) and the
      handle 0 when texture creation fails; otherwise the new pair, and its
      handle returned. */
  function LoadTexture(t: Textures, imageLoaded: bool, created: Option<(u32, u64)>): (r: (Textures, u64))
  {
    if !imageLoaded then (t, 0)
    else if created.None? then (Textures(t.ids + [0], t.handles + [0]), 0)
    else (Textures(t.ids + [created.value.0], t.handles + [created.value.1]), created.value.1)
  }

  function UnloadTextures(t: Textures): (r: Textures)
  {
    Textures([], [])
  }

  function PushSprite(s: Sprites, handle: u64, model: seq<real>, alpha: real): (r: Sprites)
  {
    Sprites(s.handles + [handle], s.models + [model], s.alphas + [alpha])
  }

  function ClearSprites(s: Sprites): (r: Sprites)
  {
    Sprites([], [], [])
  }

  /** load_texture then push_sprite with the handle it returned. */
  function LoadPushSprite(t: Textures, s: Sprites, imageLoaded: bool, created: Option<(u32, u64)>,
                          model: seq<real>, alpha: real): (r: (Textures, Sprites))
  {
    var (t2, handle) := LoadTexture(t, imageLoaded, created);
    (t2, PushSprite(s, handle, model, alpha))
  }

  /** load_texture keeps the two vectors in lockstep, adds at most one
      entry, and the handle it returns is the one it stored, or 0. */
  lemma LoadTextureKeepsLockstep(t: Textures, imageLoaded: bool, created: Option<(u32, u64)>)
    requires TexturesInv(t)
    ensures var (u, h) := LoadTexture(t, imageLoaded, created);
      && TexturesInv(u)
      && u.ids[..|t.ids|] == t.ids && u.handles[..|t.handles|] == t.handles
      && (imageLoaded <==> |u.ids| == |t.ids| + 1)
      && (imageLoaded ==> u.handles[|t.handles|] == h)
      && (h != 0 ==> imageLoaded && created.Some? && created.value.1 == h)
  {
    var (u, h) := LoadTexture(t, imageLoaded, created);
    if imageLoaded {
      assert u.ids[..|t.ids|] == t.ids;
      assert u.handles[..|t.handles|] == t.handles;
    }
  }

  /** push_sprite appends one entry to each list, the same position in all
      three, and leaves the earlier entries alone. */
  lemma PushSpriteKeepsLockstep(s: Sprites, handle: u64, model: seq<real>, alpha: real)
    requires SpritesInv(s)
    ensures var r := PushSprite(s, handle, model, alpha);
      && SpritesInv(r) && |r.handles| == |s.handles| + 1
      && r.handles[|s.handles|] == handle && r.models[|s.handles|] == model
      && r.alphas[|s.handles|] == alpha
      && r.handles[..|s.handles|] == s.handles && r.models[..|s.handles|] == s.models
      && r.alphas[..|s.handles|] == s.alphas
  {
    var r := PushSprite(s, handle, model, alpha);
    assert r.handles[..|s.handles|] == s.handles;
    assert r.models[..|s.handles|] == s.models;
    assert r.alphas[..|s.handles|] == s.alphas;
  }

  /** The lists after unload_textures and clear_sprites are empty, and so
      in lockstep. */
  lemma ClearingEmpties(t: Textures, s: Sprites)
    ensures UnloadTextures(t).ids == [] && TexturesInv(UnloadTextures(t))
    ensures ClearSprites(s).handles == [] && SpritesInv(ClearSprites(s))
  {
  }

  /** push_state: B becomes `s`, silently. */
  function PushState(m: StateSlots, s: State): (r: StateSlots)
  {
    m.(b := s)
  }

  /** transition: as the state machine's, with routines that report no
      error. */
  function Transition(m: StateSlots): (r: StateSlots)
  {
    if m.b == NoState then m
    else if m.a == NoState then
      m.(a := m.b, b := NoState, calls := m.calls + [Load(m.b)])
    else
      m.(a := m.b, b := NoState, calls := m.calls + [Unload(m.a), Load(m.b)])
  }

  /** The global transition is the state machine's transition when no
      routine reports an error. */
  lemma TransitionIsErrorFreeMachine(m: StateSlots)
    ensures Transition(m) == DtuStateMachine.Transition(m, DtuStateMachine.MenuOutcomes(None, None, None)).0
    ensures DtuStateMachine.Transition(m, DtuStateMachine.MenuOutcomes(None, None, None)).1 == None
  {
    if m.b != NoState && m.a != NoState {
      assert m.calls + [Unload(m.a)] + [Load(m.b)] == m.calls + [Unload(m.a), Load(m.b)];
    }
  }

  /** After a transition B is empty and A is the state last loaded; A
      changes exactly when a state was pending. */
  lemma TransitionKeepsInv(m: StateSlots)
    requires Inv(m)
    ensures Inv(Transition(m)) && Transition(m).b == NoState
    ensures Transition(m).a == (if m.b == NoState then m.a else m.b)
  {
    TransitionIsErrorFreeMachine(m);
    DtuStateMachine.TransitionKeepsInv(m, DtuStateMachine.MenuOutcomes(None, None, None));
  }

  /** to_str: the display name of a state. */
  function ToStr(s: State): (r: string)
  {
    match s
    case NoState => "no state"
    case ExitGame => "exit game"
    case NewGame => "new game"
    case MainMenu => "main menu"
    case Count => "unknown state"
  }

  /** Distinct named states have distinct names, and `count` is reported
      as unknown. */
  lemma ToStrNamesApart(s: State, t: State)
    requires s != t && s != Count && t != Count
    ensures ToStr(s) != ToStr(t)
    ensures ToStr(Count) == "unknown state"
  {
    assert ToStr(s)[0] != ToStr(t)[0] || ToStr(s)[1] != ToStr(t)[1];
  }

  /** update: the pending transition, then `normal_exit` exactly when the
      running state is exit_game. */
  function Update(m: StateSlots): (r: (StateSlots, Option<Error>))
  {
    var n := Transition(m);
    (n, if n.a == ExitGame then Some(NormalExit) else None)
  }

  lemma UpdateExitsOnExitGame(m: StateSlots)
    requires Inv(m)
    ensures var (n, status) := Update(m);
      && Inv(n) && n.b == NoState
      && (status == Some(NormalExit) <==> (if m.b == NoState then m.a else m.b) == ExitGame)
      && (status.None? <==> (if m.b == NoState then m.a else m.b) != ExitGame)
  {
    TransitionKeepsInv(m);
  }

  /** on_load after its set-up succeeds: push the main menu and transition
      to it. A failed set-up step returns its code and changes nothing. */
  function OnLoad(m: StateSlots, setupError: Option<int>): (r: (StateSlots, int))
  {
    if setupError.Some? then (m, setupError.value)
    else (Transition(PushState(m, MainMenu)), 0)
  }

  lemma OnLoadRunsMainMenu(m: StateSlots)
    requires Inv(m) && m.a == NoState
    ensures var (n, code) := OnLoad(m, None);
      && code == 0 && n.a == MainMenu && n.b == NoState
      && n.calls == m.calls + [Load(MainMenu)] && Inv(n)
  {
    TransitionKeepsInv(PushState(m, MainMenu));
  }

}

/** The module's globals: the state slots with their routine record, the
    loaded textures and the sprite draw list, each method proved against
    its function in DtuModule. */
module DtuModuleGlobals {
  import opened Machine
  import opened Wrappers
  import opened DtuStates
  import opened DtuModule

  class Globals {
    var a: State
    var b: State
    var calls: seq<Call>
    var textureIds: seq<u32>
    var textureHandles: seq<u64>
    var spriteHandles: seq<u64>
    var spriteModels: seq<seq<real>>
    var spriteAlphas: seq<real>

    function States(): StateSlots
      reads this
    {
      StateSlots(a, b, calls)
    }

    function LoadedTextures(): Textures
      reads this
    {
      Textures(textureIds, textureHandles)
    }

    function DrawList(): Sprites
      reads this
    {
      Sprites(spriteHandles, spriteModels, spriteAlphas)
    }

    predicate Valid()
      reads this
    {
      Inv(States()) && TexturesInv(LoadedTextures()) && SpritesInv(DrawList())
    }

    constructor ()
      ensures Valid() && States() == StateSlots(NoState, NoState, [])
      ensures LoadedTextures() == Textures([], []) && DrawList() == Sprites([], [], [])
    {
      a := NoState;
      b := NoState;
      calls := [];
      textureIds := [];
      textureHandles := [];
      spriteHandles := [];
      spriteModels := [];
      spriteAlphas := [];
    }

    method LoadTexture(imageLoaded: bool, created: Option<(u32, u64)>) returns (handle: u64)
      requires Valid()
      modifies this
      ensures Valid()
      ensures (LoadedTextures(), handle) == DtuModule.LoadTexture(old(LoadedTextures()), imageLoaded, created)
      ensures States() == old(States()) && DrawList() == old(DrawList())
    {
      handle := 0;
      if imageLoaded {
        if created.Some? {
          var (id, h) := created.value;
          textureIds := textureIds + [id];
          textureHandles := textureHandles + [h];
          handle := h;
        } else {
          textureIds := textureIds + [0];
          textureHandles := textureHandles + [0];
        }
      }
    }

    method UnloadTextures()
      requires Valid()
      modifies this
      ensures Valid() && LoadedTextures() == DtuModule.UnloadTextures(old(LoadedTextures()))
      ensures States() == old(States()) && DrawList() == old(DrawList())
    {
      textureIds := [];
      textureHandles := [];
    }

    method PushSprite(handle: u64, model: seq<real>, alpha: real)
      requires Valid()
      modifies this
      ensures Valid() && DrawList() == DtuModule.PushSprite(old(DrawList()), handle, model, alpha)
      ensures States() == old(States()) && LoadedTextures() == old(LoadedTextures())
    {
      spriteHandles := spriteHandles + [handle];
      spriteModels := spriteModels + [model];
      spriteAlphas := spriteAlphas + [alpha];
    }

    method ClearSprites()
      requires Valid()
      modifies this
      ensures Valid() && DrawList() == DtuModule.ClearSprites(old(DrawList()))
      ensures States() == old(States()) && LoadedTextures() == old(LoadedTextures())
    {
      spriteHandles := [];
      spriteModels := [];
      spriteAlphas := [];
    }

    method LoadPushSprite(imageLoaded: bool, created: Option<(u32, u64)>, model: seq<real>, alpha: real)
      requires Valid()
      modifies this
      ensures Valid() && States() == old(States())
      ensures (LoadedTextures(), DrawList())
        == DtuModule.LoadPushSprite(old(LoadedTextures()), old(DrawList()), imageLoaded, created, model, alpha)
    {
      var handle := LoadTexture(imageLoaded, created);
      PushSprite(handle, model, alpha);
    }

    method PushState(s: State)
      modifies this
      ensures States() == DtuModule.PushState(old(States()), s)
      ensures LoadedTextures() == old(LoadedTextures()) && DrawList() == old(DrawList())
    {
      b := s;
    }

    method Transition()
      requires Valid()
      modifies this
      ensures Valid() && States() == DtuModule.Transition(old(States()))
      ensures LoadedTextures() == old(LoadedTextures()) && DrawList() == old(DrawList())
    {
      TransitionKeepsInv(States());
      if b == NoState {
      } else if a == NoState {
        a := b;
        b := NoState;
        calls := calls + [Load(a)];
      } else {
        calls := calls + [Unload(a)];
        a := b;
        b := NoState;
        calls := calls + [Load(a)];
      }
    }

    method Update() returns (status: Option<Error>)
      requires Valid()
      modifies this
      ensures Valid() && (States(), status) == DtuModule.Update(old(States()))
      ensures LoadedTextures() == old(LoadedTextures()) && DrawList() == old(DrawList())
    {
      Transition();
      status := if a == ExitGame then Some(NormalExit) else None;
    }
  }
}
