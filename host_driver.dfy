/**
 * The hosts that drive a module: player/src/player.cpp with its frame
 * loops player/src/gl_main_loop.cpp and player/src/vk_main_loop.cpp, and
 * the stand-alone player_gl/src/main.cpp and player_vk/src/main.cpp. Each
 * loads the first module, resolves its API, calls `on_load` and binds the
 * window's input callbacks, cleaning up on every failure; then runs frames
 * in which F5+LeftCtrl, pressed after being released, hot-reloads the
 * module; then tears the module down.
 *
 * The loader is the abstract one of the C++ core. Keys, window close
 * requests, the statuses the module returns and the outcome of each
 * operating-system or graphics call are the inputs of a frame; timers, the
 * frame cap and drawing are not modelled. What the host does to the module
 * and window is recorded as events.
 */
module HostDriver {
  import opened Wrappers
  import opened ModuleLoader
  import opened HostEvents

  datatype Backend = OpenGl | Vulkan

  /** player/ with its backend, player_gl/ and player_vk/. */
  datatype Host = Player(backend: Backend) | PlayerGl | PlayerVk

  /** The stand-alone hosts unbind the callbacks before `on_unload`, the
      player after it. */
  predicate UnbindFirst(host: Host)
  {
    !host.Player?
  }

  /** Only the player checks the result of binding the callbacks. */
  predicate ChecksBind(host: Host)
  {
    host.Player?
  }

  /** The frame loop the host runs: the player's gl_main_loop or
      vk_main_loop by backend, and the stand-alone hosts' own. */
  function FrameBackend(host: Host): Backend
  {
    match host
    case Player(b) => b
    case PlayerGl => OpenGl
    case PlayerVk => Vulkan
  }

  /** The player runs a frame loop only for OpenGL; its Vulkan branch has
      none. */
  predicate RunsLoop(host: Host)
  {
    host != Player(Vulkan)
  }

  /** What the host terminates when it gives up or finishes. */
  function Terminations(host: Host): seq<Event>
  {
    if host == PlayerVk then [RendererTerminated, WindowTerminated] else [WindowTerminated]
  }

  /** The host's module slot: the loader, the events so far, the module
      handle and API results, the F5+LeftCtrl state of the previous frame
      and the window's should-close flag. */
  datatype Slot = Slot(ld: Loader, log: seq<Event>, mod: Result<Handle, Error>, api: Result<Api, Error>,
                       keysOld: bool, shouldClose: bool)

  /** The inputs of a frame: a close request, the keys held, whether the
      reload's close, rename and open succeed, the status `on_load`
      returns, whether binding works, whether a swapchain image is
      acquired, the status `update` returns and whether presenting
      works. */
  datatype Frame = Frame(closeRequested: bool, f5: bool, ctrl: bool,
                         closeOk: bool, renameOk: bool, opens: bool,
                         onLoadStatus: int, bindOk: bool,
                         imageOk: bool, updateStatus: int, presentOk: bool)

  /** The module is loaded, complete, and the API is its own. */
  predicate Live(st: Slot)
  {
    && Valid(st.ld)
    && st.mod.Ok? && st.api.Ok? && st.api.value.owner == st.mod.value
    && st.mod.value in st.ld.loaded && ExportsApi(st.ld.loaded[st.mod.value].exports)
  }

  /** Whenever the handle and the API agree, the module is loaded and
      complete: what any exit from the frame loop leaves. */
  predicate Consistent(st: Slot)
  {
    && Valid(st.ld)
    && (st.mod.Ok? && st.api.Ok? && st.api.value.owner == st.mod.value ==>
          st.mod.value in st.ld.loaded && ExportsApi(st.ld.loaded[st.mod.value].exports))
  }

  /** A hot reload fires on the rising edge of F5+LeftCtrl. */
  predicate ShouldReload(f5: bool, ctrl: bool, keysOld: bool)
  {
    f5 && ctrl && !keysOld
  }

  /** `on_unload` through the current API and unbinding, in the host's
      order. */
  function Detach(host: Host, st: Slot): (d: seq<Event>)
    requires st.api.Ok?
  {
    var c := Call(st.ld, st.api.value.owner, "on_unload");
    if UnbindFirst(host) then [Unbound, c] else [c, Unbound]
  }

  /** After a reload that returned a handle: `get_api`, `on_load`, and
      binding; `true` when one of them broke the loop. */
  function Attach(host: Host, st: Slot, fr: Frame): (r: (Slot, bool))
    requires st.mod.Ok?
    ensures r.0.ld == st.ld && r.0.mod == st.mod
    ensures !r.1 ==> r.0.api.Ok? && r.0.mod.Ok?
  {
    var a := GetApi(st.ld, st.mod.value).1;
    if a.Err? then (st.(api := a), true)
    else
      var st1 := st.(api := a, log := st.log + [Call(st.ld, a.value.owner, "on_load")]);
      if fr.onLoadStatus != 0 then (st1, true)
      else (st1.(log := st1.log + [Bound(a.value.owner)]), ChecksBind(host) && !fr.bindOk)
  }

  /** The hot-reload block: detach, reload, then attach; a reload error
      breaks the loop. */
  function HotReload(host: Host, st: Slot, fr: Frame): (r: (Slot, bool))
    requires st.mod.Ok? && st.api.Ok?
    ensures !r.1 ==> r.0.api.Ok? && r.0.mod.Ok?
  {
    var (m, ld1) := ModuleLoader.Reload(st.ld, st.mod.value, fr.closeOk, fr.renameOk, fr.opens);
    var st1 := st.(ld := ld1, log := st.log + Detach(host, st), mod := m);
    if m.Err? then (st1, true) else Attach(host, st1, fr)
  }

  /** The rest of a frame after the reload check: acquire an image
      (Vulkan), `update` and `draw` through the API, present (Vulkan) and
      refresh the key state; `true` when it broke out. A nonzero `update`
      status only raises should-close. */
  function Render(host: Host, st: Slot, fr: Frame): (r: (Slot, bool))
    requires st.api.Ok?
    ensures r.0.ld == st.ld && r.0.mod == st.mod && r.0.api == st.api
    ensures r.1 <==> FrameBackend(host) == Vulkan && (!fr.imageOk || !fr.presentOk)
  {
    if FrameBackend(host) == Vulkan && !fr.imageOk then (st, true)
    else
      var h := st.api.value.owner;
      var st2 := st.(log := st.log + [Call(st.ld, h, "update"), Call(st.ld, h, "draw")],
                     shouldClose := st.shouldClose || fr.updateStatus != 0);
      if FrameBackend(host) == Vulkan && !fr.presentOk then (st2, true)
      else (st2.(keysOld := fr.f5 && fr.ctrl), false)
  }

  /** One iteration of the frame loop; `true` when it broke out. A
      nonzero `update` status only raises should-close: `draw` still runs
      and the key state is still refreshed. */
  function Step(host: Host, st: Slot, fr: Frame): (r: (Slot, bool))
    requires st.mod.Ok? && st.api.Ok?
    ensures !r.1 ==> r.0.api.Ok? && r.0.mod.Ok?
  {
    var st0 := st.(shouldClose := st.shouldClose || fr.closeRequested);
    if !ShouldReload(fr.f5, fr.ctrl, st.keysOld) then Render(host, st0, fr)
    else
      var r1 := HotReload(host, st0, fr);
      if r1.1 then r1 else Render(host, r1.0, fr)
  }

  /** The frame loop over the frames given: it ends when should-close is
      seen at the top, when a frame breaks out, or when the frames run
      out. */
  function Run(host: Host, st: Slot, frames: seq<Frame>): (r: Slot)
    requires st.mod.Ok? && st.api.Ok?
    decreases |frames|
  {
    if |frames| == 0 || st.shouldClose then st
    else
      var (st1, broke) := Step(host, st, frames[0]);
      if broke then st1 else Run(host, st1, frames[1..])
  }

  /** The reload fires exactly on the rising edge: without it the loader
      and the module slot are untouched; after a frame that completes, the
      previous-frame state is the combo just held. */
  lemma StepReloadsOnRisingEdge(host: Host, st: Slot, fr: Frame)
    requires st.mod.Ok? && st.api.Ok?
    ensures var (st2, broke) := Step(host, st, fr);
      && (!broke ==> st2.keysOld == (fr.f5 && fr.ctrl))
      && (!ShouldReload(fr.f5, fr.ctrl, st.keysOld) ==> st2.ld == st.ld && st2.mod == st.mod && st2.api == st.api)
  {
  }

  /** Holding the combo across two frames reloads at most once: the second
      frame changes neither the loader nor the module. */
  lemma HeldComboReloadsOnce(host: Host, st: Slot, fr1: Frame, fr2: Frame)
    requires st.mod.Ok? && st.api.Ok?
    requires fr1.f5 && fr1.ctrl && fr2.f5 && fr2.ctrl
    requires !Step(host, st, fr1).1
    ensures var st1 := Step(host, st, fr1).0;
      var st2 := Step(host, st1, fr2).0;
      st2.ld == st1.ld && st2.mod == st1.mod && st2.api == st1.api
  {
    StepReloadsOnRisingEdge(host, st, fr1);
    StepReloadsOnRisingEdge(host, Step(host, st, fr1).0, fr2);
  }

  /** A hot reload breaks the loop exactly when the reload errs, the API
      cannot be resolved, `on_load` fails, or (in the player) binding
      fails. */
  lemma HotReloadBreaksOnAnyFailure(host: Host, st: Slot, fr: Frame)
    requires st.mod.Ok? && st.api.Ok?
    ensures var (m, ld1) := ModuleLoader.Reload(st.ld, st.mod.value, fr.closeOk, fr.renameOk, fr.opens);
      HotReload(host, st, fr).1 <==>
        || m.Err?
        || GetApi(ld1, m.value).1.Err?
        || fr.onLoadStatus != 0
        || (ChecksBind(host) && !fr.bindOk)
  {
  }

  /** A successful hot reload of a live module: `on_unload` and unbinding
      in the host's order, then `on_load` and binding on the new module,
      which is live and replaces the old one. */
  lemma HotReloadOrder(host: Host, st: Slot, fr: Frame)
    requires Live(st) && !HotReload(host, st, fr).1
    ensures var st2 := HotReload(host, st, fr).0;
      var h := st.mod.value;
      var hn := st2.mod.value;
      var c := Called(h, "on_unload", true);
      && Live(st2)
      && st2.log == st.log + (if UnbindFirst(host) then [Unbound, c] else [c, Unbound])
                           + [Called(hn, "on_load", true), Bound(hn)]
      && (fr.closeOk ==> h !in st2.ld.loaded)
  {
    var h := st.mod.value;
    assert API_EXPORTS[1] == "on_unload";
    assert Call(st.ld, h, "on_unload") == Called(h, "on_unload", true);
    ReloadSwapsHandle(st.ld, h, fr.closeOk, fr.renameOk, fr.opens);
    var (m, ld1) := ModuleLoader.Reload(st.ld, h, fr.closeOk, fr.renameOk, fr.opens);
    GetApiChecksInOrder(ld1, m.value);
    assert API_EXPORTS[0] == "on_load";
  }

  /** A frame without a reload that reaches `update`: `update` and `draw`
      are called on the same module, a nonzero status only raises
      should-close, and the module stays loaded. On Vulkan a missing
      swapchain image breaks before `update`, a failed present after
      `draw`. */
  lemma UpdateStatusOnlyRequestsClose(host: Host, st: Slot, fr: Frame)
    requires st.mod.Ok? && st.api.Ok? && !ShouldReload(fr.f5, fr.ctrl, st.keysOld)
    ensures var (st2, broke) := Step(host, st, fr);
      var h := st.api.value.owner;
      && st2.ld == st.ld && st2.mod == st.mod && st2.api == st.api
      && (FrameBackend(host) == Vulkan && !fr.imageOk ==> broke && st2.log == st.log)
      && (FrameBackend(host) == OpenGl || fr.imageOk ==>
            && st2.log == st.log + [Call(st.ld, h, "update"), Call(st.ld, h, "draw")]
            && st2.shouldClose == (st.shouldClose || fr.closeRequested || fr.updateStatus != 0)
            && (broke <==> FrameBackend(host) == Vulkan && !fr.presentOk))
  {
  }

  /** A frame keeps the log safe, and leaves the slot live when it
      completes and consistent when it breaks out; with its closes
      succeeding, nothing is left open but the base libraries and the
      current module. */
  lemma StepKeepsLive(host: Host, st: Slot, fr: Frame, base: set<Handle>)
    requires Live(st) && AllSafe(st.log)
    ensures var (st2, broke) := Step(host, st, fr);
      && AllSafe(st2.log)
      && Consistent(st2)
      && (!broke ==> Live(st2))
      && (fr.closeOk && NoLeak(st, base) ==> NoLeak(st2, base))
  {
    var st0 := st.(shouldClose := st.shouldClose || fr.closeRequested);
    if ShouldReload(fr.f5, fr.ctrl, st.keysOld) {
      HotReloadKeepsLive(host, st0, fr);
      if fr.closeOk && NoLeak(st, base) {
        HotReloadLeaksNothing(host, st0, fr, base);
      }
      var (st1, broke) := HotReload(host, st0, fr);
      if !broke {
        RenderKeepsLive(host, st1, fr);
      }
    } else {
      RenderKeepsLive(host, st0, fr);
    }
  }

  /** The rest of a frame keeps a live slot live, its log safe and its libraries as they were. */
  lemma RenderKeepsLive(host: Host, st: Slot, fr: Frame)
    requires Live(st) && AllSafe(st.log)
    ensures var (st2, broke) := Render(host, st, fr);
      && AllSafe(st2.log) && Live(st2) && st2.ld == st.ld && st2.mod == st.mod
  {
    if !(FrameBackend(host) == Vulkan && !fr.imageOk) {
      var h := st.api.value.owner;
      assert API_EXPORTS[2] == "draw" && API_EXPORTS[3] == "update";
      AllSafeAppend(st.log, [Call(st.ld, h, "update"), Call(st.ld, h, "draw")]);
    }
  }

  /** Nothing is open but the base libraries and the slot's module. */
  predicate NoLeak(st: Slot, base: set<Handle>)
  {
    forall g :: g in st.ld.loaded ==> g in base || (st.mod.Ok? && g == st.mod.value)
  }

  /** The hot-reload block keeps the log safe and the slot consistent, and
      live when it does not break out. */
  lemma HotReloadKeepsLive(host: Host, st: Slot, fr: Frame)
    requires Live(st) && AllSafe(st.log)
    ensures var (st2, broke) := HotReload(host, st, fr);
      && AllSafe(st2.log)
      && Consistent(st2)
      && (!broke ==> Live(st2))
  {
    var h := st.mod.value;
    assert API_EXPORTS[1] == "on_unload";
    AllSafeAppend(st.log, Detach(host, st));
    ReloadSwapsHandle(st.ld, h, fr.closeOk, fr.renameOk, fr.opens);
    var (m, ld1) := ModuleLoader.Reload(st.ld, h, fr.closeOk, fr.renameOk, fr.opens);
    var st1 := st.(ld := ld1, log := st.log + Detach(host, st), mod := m);
    assert AllSafe(st1.log) && Valid(st1.ld);
    assert HotReload(host, st, fr) == if m.Err? then (st1, true) else Attach(host, st1, fr);
    if m.Ok? {
      AttachKeepsLive(host, st1, fr);
    }
  }

  /** Attaching a freshly loaded module keeps the log safe and the slot
      consistent, and live when it does not break out. */
  lemma AttachKeepsLive(host: Host, st: Slot, fr: Frame)
    requires Valid(st.ld) && st.mod.Ok? && AllSafe(st.log)
    ensures var (st2, broke) := Attach(host, st, fr);
      && AllSafe(st2.log)
      && Consistent(st2)
      && (!broke ==> Live(st2))
  {
    GetApiChecksInOrder(st.ld, st.mod.value);
    var a := GetApi(st.ld, st.mod.value).1;
    if a.Ok? {
      assert API_EXPORTS[0] == "on_load";
      var c := Call(st.ld, a.value.owner, "on_load");
      AllSafeAppend(st.log, [c]);
      AllSafeAppend(st.log + [c], [Bound(a.value.owner)]);
    }
  }

  /** With its close succeeding, the hot-reload block closes the old
      module: nothing is open but the base libraries and the new one. */
  lemma HotReloadLeaksNothing(host: Host, st: Slot, fr: Frame, base: set<Handle>)
    requires Live(st) && fr.closeOk && NoLeak(st, base)
    ensures NoLeak(HotReload(host, st, fr).0, base)
  {
    var h := st.mod.value;
    assert API_EXPORTS[0] == "on_load";
    assert GetName(st.ld, h).Ok?;
    ReloadSwapsHandle(st.ld, h, fr.closeOk, fr.renameOk, fr.opens);
    var (m, ld1) := ModuleLoader.Reload(st.ld, h, fr.closeOk, fr.renameOk, fr.opens);
    var st2 := HotReload(host, st, fr).0;
    assert st2.ld == ld1 && st2.mod == m;
    forall g | g in st2.ld.loaded
      ensures g in base || (st2.mod.Ok? && g == st2.mod.value)
    {
      assert g in st.ld.loaded || (m.Ok? && g == m.value);
    }
  }

  /** The frame loop keeps the log safe and ends in a consistent slot;
      with every close succeeding, it leaks nothing. */
  lemma {:induction false} RunKeepsConsistent(host: Host, st: Slot, frames: seq<Frame>, base: set<Handle>)
    requires Live(st) && AllSafe(st.log)
    ensures AllSafe(Run(host, st, frames).log)
    ensures Consistent(Run(host, st, frames))
    ensures (forall k :: 0 <= k < |frames| ==> frames[k].closeOk) && NoLeak(st, base) ==>
              NoLeak(Run(host, st, frames), base)
    decreases |frames|
  {
    if |frames| > 0 && !st.shouldClose {
      StepKeepsLive(host, st, frames[0], base);
      var (st1, broke) := Step(host, st, frames[0]);
      if !broke {
        RunKeepsConsistent(host, st1, frames[1..], base);
        if (forall k :: 0 <= k < |frames| ==> frames[k].closeOk) {
          assert forall k :: 0 <= k < |frames[1..]| ==> frames[1..][k] == frames[k + 1];
        }
      }
    }
  }

  /** Teardown as written: `on_unload` through whatever API the loop left
      and `unload` of whatever handle it left, each read without a check;
      then the window (and renderer) is terminated. */
  function TeardownAsWritten(host: Host, st: Slot, closeOk: bool): (r: Slot)
  {
    var c := if st.api.Ok? then Call(st.ld, st.api.value.owner, "on_unload") else EmptyRead("mod_api");
    var st1 := st.(log := st.log + (if UnbindFirst(host) then [Unbound, c] else [c, Unbound]));
    var st2 :=
      if st1.mod.Err? then st1.(log := st1.log + [EmptyRead("mod")])
      else if st1.mod.value == NULL_HANDLE then st1
      else st1.(ld := ModuleLoader.Unload(st1.ld, st1.mod.value, closeOk), log := st1.log + [Unloaded(st1.mod.value)]);
    st2.(log := st2.log + Terminations(host))
  }

  /** Teardown, corrected: `on_unload` only through the API of the module
      still held, `unload` only of a handle that is there. */
  function Teardown(host: Host, st: Slot, closeOk: bool): (r: Slot)
  {
    var held := st.mod.Ok? && st.api.Ok? && st.api.value.owner == st.mod.value;
    var c := if held then [Call(st.ld, st.mod.value, "on_unload")] else [];
    var st1 := st.(log := st.log + (if UnbindFirst(host) then [Unbound] + c else c + [Unbound]));
    var st2 :=
      if st1.mod.Err? || st1.mod.value == NULL_HANDLE then st1
      else st1.(ld := ModuleLoader.Unload(st1.ld, st1.mod.value, closeOk), log := st1.log + [Unloaded(st1.mod.value)]);
    st2.(log := st2.log + Terminations(host))
  }

  /** On a live slot both teardowns agree and run `on_unload` and
      unbinding in the host's order, then `unload`, then terminate the
      renderer (player_vk) and the window. */
  lemma TeardownOrder(host: Host, st: Slot, closeOk: bool)
    requires Live(st)
    ensures var h := st.mod.value;
      var c := Called(h, "on_unload", true);
      && TeardownAsWritten(host, st, closeOk) == Teardown(host, st, closeOk)
      && Teardown(host, st, closeOk).log ==
           st.log + (if UnbindFirst(host) then [Unbound, c] else [c, Unbound]) + [Unloaded(h)] + Terminations(host)
      && (closeOk ==> h !in Teardown(host, st, closeOk).ld.loaded)
  {
    assert API_EXPORTS[1] == "on_unload";
  }

  /** The corrected teardown of any consistent slot keeps the log safe
      and, when the close succeeds, leaves only the base libraries
      open. */
  lemma TeardownIsSafe(host: Host, st: Slot, closeOk: bool, base: set<Handle>)
    requires Consistent(st) && AllSafe(st.log)
    ensures AllSafe(Teardown(host, st, closeOk).log)
    ensures closeOk && NoLeak(st, base) ==> forall g :: g in Teardown(host, st, closeOk).ld.loaded ==> g in base
  {
    TeardownLogIsSafe(host, st, closeOk);
    TeardownClosesModule(host, st, closeOk, base);
  }

  /** The events of the corrected teardown of a consistent slot are safe. */
  lemma TeardownLogIsSafe(host: Host, st: Slot, closeOk: bool)
    requires Consistent(st) && AllSafe(st.log)
    ensures AllSafe(Teardown(host, st, closeOk).log)
  {
    TeardownLogShape(host, st, closeOk);
    DetachEventsSafe(host, st);
    var d, u, t := DetachEvents(host, st), UnloadEvents(st), Terminations(host);
    assert AllSafe(u) && AllSafe(t);
    AllSafeAppend(st.log, d);
    AllSafeAppend(st.log + d, u);
    AllSafeAppend(st.log + d + u, t);
  }

  /** The events the corrected teardown logs while detaching the module:
      `on_unload` when the API is held, and the unbinding, in the host's order. */
  function DetachEvents(host: Host, st: Slot): seq<Event>
  {
    var held := st.mod.Ok? && st.api.Ok? && st.api.value.owner == st.mod.value;
    var c := if held then [Call(st.ld, st.mod.value, "on_unload")] else [];
    if UnbindFirst(host) then [Unbound] + c else c + [Unbound]
  }

  /** The unload event, when a module is held. */
  function UnloadEvents(st: Slot): seq<Event>
  {
    if st.mod.Err? || st.mod.value == NULL_HANDLE then [] else [Unloaded(st.mod.value)]
  }

  lemma DetachEventsSafe(host: Host, st: Slot)
    requires Consistent(st)
    ensures AllSafe(DetachEvents(host, st))
  {
    var held := st.mod.Ok? && st.api.Ok? && st.api.value.owner == st.mod.value;
    var c := if held then [Call(st.ld, st.mod.value, "on_unload")] else [];
    if held {
      assert API_EXPORTS[1] == "on_unload";
      assert Safe(c[0]);
    }
    assert AllSafe(c);
    AllSafeAppend([Unbound], c);
    AllSafeAppend(c, [Unbound]);
  }

  /** The corrected teardown appends the detach events, the unload and the
      terminations, in that order. */
  lemma TeardownLogShape(host: Host, st: Slot, closeOk: bool)
    ensures Teardown(host, st, closeOk).log == st.log + DetachEvents(host, st) + UnloadEvents(st) + Terminations(host)
  {
    if st.mod.Err? || st.mod.value == NULL_HANDLE {
      assert st.log + DetachEvents(host, st) + [] == st.log + DetachEvents(host, st);
    }
  }

  /** With its close succeeding, the corrected teardown leaves open only
      what was open besides the module. */
  lemma TeardownClosesModule(host: Host, st: Slot, closeOk: bool, base: set<Handle>)
    requires Valid(st.ld)
    ensures closeOk && NoLeak(st, base) ==> forall g :: g in Teardown(host, st, closeOk).ld.loaded ==> g in base
  {
    if st.mod.Ok? && st.mod.value != NULL_HANDLE {
      UnloadClosesOnlyThatHandle(st.ld, st.mod.value, closeOk);
      assert Teardown(host, st, closeOk).ld == ModuleLoader.Unload(st.ld, st.mod.value, closeOk);
    } else {
      assert Teardown(host, st, closeOk).ld == st.ld;
    }
  }

  /** A hot reload whose module file has vanished: the old module is
      unloaded and the loop breaks with the load error, and the as-written
      teardown then calls `on_unload` in the closed library and reads the
      empty handle, where the corrected one calls nothing. */
  lemma TeardownAsWrittenCallsUnloadedModule()
    ensures var ld := Loader(map[], map[1 := Library("m.so", {"on_load", "on_unload"})], 2);
      var st := Slot(ld, [], Ok(1), Ok(Api(1)), false, false);
      var fr := Frame(false, true, true, true, true, true, 0, true, true, 0, true);
      var (st2, broke) := Step(PlayerGl, st, fr);
      && broke && st2.mod == Err(Loading) && 1 !in st2.ld.loaded
      && Called(1, "on_unload", false) in TeardownAsWritten(PlayerGl, st2, true).log
      && EmptyRead("mod") in TeardownAsWritten(PlayerGl, st2, true).log
      && Teardown(PlayerGl, st2, true).log == st2.log + [Unbound, WindowTerminated]
  {
    var ld := Loader(map[], map[1 := Library("m.so", {"on_load", "on_unload"})], 2);
    var st := Slot(ld, [], Ok(1), Ok(Api(1)), false, false);
    var fr := Frame(false, true, true, true, true, true, 0, true, true, 0, true);
    assert GetName(ld, 1) == Ok("m.so");
    var st2 := Step(PlayerGl, st, fr).0;
    var tw := TeardownAsWritten(PlayerGl, st2, true);
    assert tw.log[|st2.log| + 1] == Called(1, "on_unload", false);
    assert tw.log[|st2.log| + 2] == EmptyRead("mod");
  }

  /** What startup leaves: a running slot, or an exit with the loader and
      the events. */
  datatype Outcome = Started(st: Slot) | Exited(ld: Loader, log: seq<Event>)

  /** The inputs of startup: whether the module path is set, whether the
      first module opens, the status `on_load` returns, whether binding
      works and whether F5+LeftCtrl are held. */
  datatype Launch = Launch(pathOk: bool, opens: bool, onLoadStatus: int, bindOk: bool, keysDown: bool)

  /** The startup chain after the window (and renderer) exist: set the
      module path, load, resolve the API, `on_load`, bind; a failure
      before the load terminates and exits, a later one also unloads. */
  function Startup(host: Host, ld: Loader, log: seq<Event>, path: string, l: Launch, closeOk: bool): (r: Outcome)
  {
    if !l.pathOk then Exited(ld, log + Terminations(host))
    else
      match ModuleLoader.Load(ld, path, l.opens)
      case (Err(_), _) => Exited(ld, log + Terminations(host))
      case (Ok(h), ld1) =>
        var a := GetApi(ld1, h).1;
        var bail := ModuleLoader.Unload(ld1, h, closeOk);
        if a.Err? then Exited(bail, log + Terminations(host) + [Unloaded(h)])
        else
          var log1 := log + [Call(ld1, h, "on_load")];
          if l.onLoadStatus != 0 then Exited(bail, log1 + Terminations(host) + [Unloaded(h)])
          else if ChecksBind(host) && !l.bindOk then Exited(bail, log1 + [Bound(h)] + Terminations(host) + [Unloaded(h)])
          else Started(Slot(ld1, log1 + [Bound(h)], Ok(h), a, l.keysDown, false))
  }

  /** A failure before anything is loaded terminates without unloading; a
      later failure terminates and then unloads, so with the close
      succeeding nothing stays open; callbacks are bound only after a
      successful `on_load`, and a started host holds a live module. */
  lemma StartupCleansUp(host: Host, ld: Loader, log: seq<Event>, path: string, l: Launch, closeOk: bool)
    requires Valid(ld)
    ensures match Startup(host, ld, log, path, l, closeOk)
      case Exited(ld2, log2) =>
        && (!l.pathOk || !l.opens || path !in ld.files ==> ld2 == ld && log2 == log + Terminations(host))
        && (closeOk ==> ld2.loaded == ld.loaded)
        && (Bound(ld.next) in log2[|log|..] ==> ChecksBind(host) && l.onLoadStatus == 0 && !l.bindOk)
        && Valid(ld2)
      case Started(st) =>
        && Live(st)
        && st.log == log + [Called(ld.next, "on_load", true), Bound(ld.next)]
        && st.mod == Ok(ld.next) && st.keysOld == l.keysDown && !st.shouldClose
        && st.ld.loaded == ld.loaded[ld.next := Library(path, ld.files[path])]
  {
    StartupExitCleansUp(host, ld, log, path, l, closeOk);
    StartupBindsAfterOnLoad(host, ld, log, path, l, closeOk);
    if Startup(host, ld, log, path, l, closeOk).Started? {
      StartupStartsLive(host, ld, log, path, l, closeOk);
    }
  }

  lemma StartupExitCleansUp(host: Host, ld: Loader, log: seq<Event>, path: string, l: Launch, closeOk: bool)
    requires Valid(ld)
    ensures match Startup(host, ld, log, path, l, closeOk)
      case Exited(ld2, log2) =>
        && (!l.pathOk || !l.opens || path !in ld.files ==> ld2 == ld && log2 == log + Terminations(host))
        && (closeOk ==> ld2.loaded == ld.loaded)
        && Valid(ld2)
      case Started(_) => true
  {
    LoadOpensFreshHandle(ld, path, l.opens);
    if l.pathOk && l.opens && path in ld.files {
      var (_, ld1) := ModuleLoader.Load(ld, path, l.opens);
      var h := ld.next;
      UnloadClosesOnlyThatHandle(ld1, h, closeOk);
      GetApiChecksInOrder(ld1, h);
      assert API_EXPORTS[0] == "on_load";
      if closeOk {
        assert ModuleLoader.Unload(ld1, h, closeOk).loaded == ld.loaded;
      }
    }
  }

  /** Callbacks are bound only after `on_load` succeeded. */
  lemma StartupBindsAfterOnLoad(host: Host, ld: Loader, log: seq<Event>, path: string, l: Launch, closeOk: bool)
    requires Valid(ld)
    ensures match Startup(host, ld, log, path, l, closeOk)
      case Exited(_, log2) =>
        Bound(ld.next) in log2[|log|..] ==> ChecksBind(host) && l.onLoadStatus == 0 && !l.bindOk
      case Started(_) => true
  {
    LoadOpensFreshHandle(ld, path, l.opens);
    if l.pathOk && l.opens && path in ld.files {
      var ld1 := ModuleLoader.Load(ld, path, l.opens).1;
      var h := ld.next;
      var t := Terminations(host);
      assert Bound(h) !in t;
      match Startup(host, ld, log, path, l, closeOk)
      case Exited(_, log2) =>
        if GetApi(ld1, h).1.Err? {
          assert log2[|log|..] == t + [Unloaded(h)];
        } else if l.onLoadStatus != 0 {
          assert log2[|log|..] == [Call(ld1, h, "on_load")] + t + [Unloaded(h)];
        }
      case Started(_) =>
    } else {
      assert Startup(host, ld, log, path, l, closeOk).log == log + Terminations(host);
    }
  }

  lemma StartupStartsLive(host: Host, ld: Loader, log: seq<Event>, path: string, l: Launch, closeOk: bool)
    requires Valid(ld) && Startup(host, ld, log, path, l, closeOk).Started?
    ensures var st := Startup(host, ld, log, path, l, closeOk).st;
      && Live(st)
      && st.log == log + [Called(ld.next, "on_load", true), Bound(ld.next)]
      && st.mod == Ok(ld.next) && st.keysOld == l.keysDown && !st.shouldClose
      && st.ld.loaded == ld.loaded[ld.next := Library(path, ld.files[path])]
  {
    LoadOpensFreshHandle(ld, path, l.opens);
    GetApiChecksInOrder(ModuleLoader.Load(ld, path, l.opens).1, ld.next);
    assert API_EXPORTS[0] == "on_load";
  }

  /** The slot a started host reaches the teardown with: the frame loop's
      end where the host runs one, the started slot otherwise. */
  function LoopEnd(host: Host, st: Slot, frames: seq<Frame>): Slot
  {
    if RunsLoop(host) && st.mod.Ok? && st.api.Ok? then Run(host, st, frames) else st
  }

  /** The slot still holds a module and the API that module exported. */
  predicate Held(st: Slot)
  {
    st.mod.Ok? && st.api.Ok? && st.api.value.owner == st.mod.value
  }

  /** A whole run of a host with the corrected teardown: startup, the
      frame loop where the host has one, and teardown; `true` for a
      successful exit. */
  function RunPlayer(host: Host, ld: Loader, path: string, l: Launch, frames: seq<Frame>, closeOk: bool): (r: (bool, Loader, seq<Event>))
    ensures r.0 <==> Startup(host, ld, [], path, l, closeOk).Started?
    ensures !r.0 ==> (r.1, r.2) == (Startup(host, ld, [], path, l, closeOk).ld, Startup(host, ld, [], path, l, closeOk).log)
  {
    match Startup(host, ld, [], path, l, closeOk)
    case Exited(ld2, log) => (false, ld2, log)
    case Started(st) =>
      var st3 := Teardown(host, LoopEnd(host, st, frames), closeOk);
      (true, st3.ld, st3.log)
  }

  /** A whole run as the program runs it: the same startup and frame loop,
      then the unconditional teardown. */
  function RunPlayerAsWritten(host: Host, ld: Loader, path: string, l: Launch, frames: seq<Frame>, closeOk: bool): (r: (bool, Loader, seq<Event>))
    ensures r.0 == RunPlayer(host, ld, path, l, frames, closeOk).0
    ensures !r.0 ==> r == RunPlayer(host, ld, path, l, frames, closeOk)
  {
    match Startup(host, ld, [], path, l, closeOk)
    case Exited(ld2, log) => (false, ld2, log)
    case Started(st) =>
      var st3 := TeardownAsWritten(host, LoopEnd(host, st, frames), closeOk);
      (true, st3.ld, st3.log)
  }

  /** An exit during startup leaves a safe log. */
  lemma StartupExitIsSafe(host: Host, ld: Loader, path: string, l: Launch, closeOk: bool)
    requires Valid(ld) && Startup(host, ld, [], path, l, closeOk).Exited?
    ensures AllSafe(Startup(host, ld, [], path, l, closeOk).log)
  {
    LoadOpensFreshHandle(ld, path, l.opens);
    if l.pathOk && l.opens && path in ld.files {
      var ld1 := ModuleLoader.Load(ld, path, l.opens).1;
      var h := ld.next;
      GetApiChecksInOrder(ld1, h);
      assert API_EXPORTS[0] == "on_load";
      var t := Terminations(host);
      assert AllSafe(t);
      if GetApi(ld1, h).1.Err? {
        AllSafeAppend(t, [Unloaded(h)]);
      } else {
        var log1 := [Call(ld1, h, "on_load")];
        AllSafeAppend(log1, t);
        AllSafeAppend(log1 + t, [Unloaded(h)]);
        AllSafeAppend(log1, [Bound(h)]);
        AllSafeAppend(log1 + [Bound(h)], t);
        AllSafeAppend(log1 + [Bound(h)] + t, [Unloaded(h)]);
      }
    }
  }

  /** Over a whole run nothing is called in a closed library and no empty
      result is read, and when every close succeeds the libraries open at
      the end are those open at the start. */
  lemma RunPlayerIsSafe(host: Host, ld: Loader, path: string, l: Launch, frames: seq<Frame>, closeOk: bool)
    requires Valid(ld)
    ensures AllSafe(RunPlayer(host, ld, path, l, frames, closeOk).2)
    ensures closeOk && (forall k :: 0 <= k < |frames| ==> frames[k].closeOk) ==>
              RunPlayer(host, ld, path, l, frames, closeOk).1.loaded.Keys <= ld.loaded.Keys
  {
    StartupCleansUp(host, ld, [], path, l, closeOk);
    var o := Startup(host, ld, [], path, l, closeOk);
    if o.Exited? {
      StartupExitIsSafe(host, ld, path, l, closeOk);
    } else {
      var st := o.st;
      var base := ld.loaded.Keys;
      AllSafeAppend([Called(ld.next, "on_load", true)], [Bound(ld.next)]);
      assert NoLeak(st, base);
      if RunsLoop(host) {
        RunKeepsConsistent(host, st, frames, base);
        TeardownIsSafe(host, Run(host, st, frames), closeOk, base);
      } else {
        TeardownIsSafe(host, st, closeOk, base);
      }
    }
  }

  /** A started host reaches the teardown in a consistent slot with a safe log. */
  lemma LoopEndIsConsistent(host: Host, ld: Loader, path: string, l: Launch, frames: seq<Frame>, closeOk: bool)
    requires Valid(ld) && Startup(host, ld, [], path, l, closeOk).Started?
    ensures var e := LoopEnd(host, Startup(host, ld, [], path, l, closeOk).st, frames);
      Consistent(e) && AllSafe(e.log)
  {
    StartupStartsLive(host, ld, [], path, l, closeOk);
    var st := Startup(host, ld, [], path, l, closeOk).st;
    AllSafeAppend([Called(ld.next, "on_load", true)], [Bound(ld.next)]);
    if RunsLoop(host) {
      RunKeepsConsistent(host, st, frames, {});
    }
  }

  /** When the frame loop ends with the module and its API still held
      (every exit but a failed hot reload), the program's run is the
      corrected one, and so calls nothing in a closed library. */
  lemma RunPlayerAsWrittenAgrees(host: Host, ld: Loader, path: string, l: Launch, frames: seq<Frame>, closeOk: bool)
    requires Valid(ld)
    requires Startup(host, ld, [], path, l, closeOk).Started? ==>
               Held(LoopEnd(host, Startup(host, ld, [], path, l, closeOk).st, frames))
    ensures RunPlayerAsWritten(host, ld, path, l, frames, closeOk) == RunPlayer(host, ld, path, l, frames, closeOk)
    ensures AllSafe(RunPlayerAsWritten(host, ld, path, l, frames, closeOk).2)
  {
    RunPlayerIsSafe(host, ld, path, l, frames, closeOk);
    if Startup(host, ld, [], path, l, closeOk).Started? {
      LoopEndIsConsistent(host, ld, path, l, frames, closeOk);
      TeardownOrder(host, LoopEnd(host, Startup(host, ld, [], path, l, closeOk).st, frames), closeOk);
    }
  }

  /** When the frame loop ends without a module or without its API (a
      failed hot reload), the program's run reads an empty result in its
      teardown. */
  lemma RunPlayerAsWrittenReadsEmpty(host: Host, ld: Loader, path: string, l: Launch, frames: seq<Frame>, closeOk: bool)
    requires Startup(host, ld, [], path, l, closeOk).Started?
    requires var e := LoopEnd(host, Startup(host, ld, [], path, l, closeOk).st, frames);
      e.mod.Err? || e.api.Err?
    ensures !AllSafe(RunPlayerAsWritten(host, ld, path, l, frames, closeOk).2)
  {
    TeardownAsWrittenReadsEmpty(host, LoopEnd(host, Startup(host, ld, [], path, l, closeOk).st, frames), closeOk);
  }

  /** The as-written teardown of a slot without a module or without an API
      logs a read of the empty result. */
  lemma TeardownAsWrittenReadsEmpty(host: Host, st: Slot, closeOk: bool)
    requires st.mod.Err? || st.api.Err?
    ensures !AllSafe(TeardownAsWritten(host, st, closeOk).log)
  {
    var log := TeardownAsWritten(host, st, closeOk).log;
    if st.api.Err? {
      var k := if UnbindFirst(host) then |st.log| + 1 else |st.log|;
      assert log[k] == EmptyRead("mod_api");
    } else {
      assert log[|st.log| + 2] == EmptyRead("mod");
    }
  }
}

/** A host process: the loader object and the host's module slot, driven
    through startup, the frame loop and teardown. */
module HostDriverObject {
  import opened Wrappers
  import opened ModuleLoader
  import opened HostEvents
  import opened HostDriver
  import opened ModuleLoaderObject

  class Process {
    const host: Host
    const loader: LoaderState
    var log: seq<Event>
    var mod: Result<Handle, Error>
    var api: Result<Api, Error>
    var keysOld: bool
    var shouldClose: bool

    function Model(): Slot
      reads this, loader
    {
      Slot(loader.Model(), log, mod, api, keysOld, shouldClose)
    }

    /** A process that has done nothing yet and holds no module. */
    constructor (host0: Host, l: LoaderState)
      ensures host == host0 && loader == l
      ensures log == [] && mod == Err(Loading) && api == Err(SymbolRetrieval)
      ensures !keysOld && !shouldClose
    {
      host := host0;
      loader := l;
      log := [];
      mod := Err(Loading);
      api := Err(SymbolRetrieval);
      keysOld := false;
      shouldClose := false;
    }

    /** Terminate the window (and renderer), then unload `h`. */
    method Bail(h: Handle, closeOk: bool)
      modifies this, loader
      ensures loader.Model() == ModuleLoader.Unload(old(loader.Model()), h, closeOk)
      ensures log == old(log) + Terminations(host) + [Unloaded(h)]
      ensures mod == old(mod) && api == old(api) && keysOld == old(keysOld) && shouldClose == old(shouldClose)
    {
      log := log + Terminations(host);
      loader.Unload(h, closeOk);
      log := log + [Unloaded(h)];
    }

    method Startup(path: string, l: Launch, closeOk: bool) returns (started: bool)
      modifies this, loader
      ensures var o := HostDriver.Startup(host, old(loader.Model()), old(log), path, l, closeOk);
        && (started <==> o.Started?)
        && (o.Started? ==> Model() == o.st)
        && (o.Exited? ==> loader.Model() == o.ld && log == o.log)
    {
      if !l.pathOk {
        log := log + Terminations(host);
        return false;
      }
      var r := loader.Load(path, l.opens);
      if r.Err? {
        log := log + Terminations(host);
        return false;
      }
      var h := r.value;
      var a := GetApi(loader.Model(), h).1;
      if a.Err? {
        Bail(h, closeOk);
        return false;
      }
      log := log + [Call(loader.Model(), h, "on_load")];
      if l.onLoadStatus != 0 {
        Bail(h, closeOk);
        return false;
      }
      log := log + [Bound(h)];
      if ChecksBind(host) && !l.bindOk {
        Bail(h, closeOk);
        return false;
      }
      mod, api, keysOld, shouldClose := Ok(h), a, l.keysDown, false;
      started := true;
    }

    method Attach(fr: Frame) returns (broke: bool)
      requires mod.Ok?
      modifies this
      ensures (Model(), broke) == HostDriver.Attach(host, old(Model()), fr)
    {
      api := GetApi(loader.Model(), mod.value).1;
      if api.Err? {
        return true;
      }
      log := log + [Call(loader.Model(), api.value.owner, "on_load")];
      if fr.onLoadStatus != 0 {
        return true;
      }
      log := log + [Bound(api.value.owner)];
      broke := ChecksBind(host) && !fr.bindOk;
    }

    method HotReload(fr: Frame) returns (broke: bool)
      requires mod.Ok? && api.Ok?
      modifies this, loader
      ensures (Model(), broke) == HostDriver.HotReload(host, old(Model()), fr)
    {
      log := log + Detach(host, Model());
      var m := loader.Reload(mod.value, fr.closeOk, fr.renameOk, fr.opens);
      mod := m;
      if m.Err? {
        return true;
      }
      broke := Attach(fr);
    }

    method RunFrame(fr: Frame) returns (broke: bool)
      requires mod.Ok? && api.Ok?
      modifies this, loader
      ensures (Model(), broke) == Step(host, old(Model()), fr)
    {
      shouldClose := shouldClose || fr.closeRequested;
      assert Model() == old(Model()).(shouldClose := old(shouldClose) || fr.closeRequested);
      if ShouldReload(fr.f5, fr.ctrl, keysOld) {
        broke := ReloadThenRender(fr);
      } else {
        broke := Render(fr);
      }
    }

    /** The reload block, then the rest of the frame unless the reload broke out. */
    method ReloadThenRender(fr: Frame) returns (broke: bool)
      requires mod.Ok? && api.Ok?
      modifies this, loader
      ensures var r1 := HostDriver.HotReload(host, old(Model()), fr);
        (Model(), broke) == if r1.1 then r1 else HostDriver.Render(host, r1.0, fr)
    {
      broke := HotReload(fr);
      if !broke {
        broke := Render(fr);
      }
    }

    method Render(fr: Frame) returns (broke: bool)
      requires api.Ok?
      modifies this
      ensures (Model(), broke) == HostDriver.Render(host, old(Model()), fr)
    {
      if FrameBackend(host) == Vulkan && !fr.imageOk {
        return true;
      }
      var h := api.value.owner;
      log := log + [Call(loader.Model(), h, "update"), Call(loader.Model(), h, "draw")];
      shouldClose := shouldClose || fr.updateStatus != 0;
      if FrameBackend(host) == Vulkan && !fr.presentOk {
        return true;
      }
      keysOld := fr.f5 && fr.ctrl;
      broke := false;
    }

    method RunLoop(frames: seq<Frame>)
      requires mod.Ok? && api.Ok?
      modifies this, loader
      ensures Model() == Run(host, old(Model()), frames)
    {
      var i := 0;
      while i < |frames| && !shouldClose
        invariant 0 <= i <= |frames|
        invariant mod.Ok? && api.Ok?
        invariant Run(host, Model(), frames[i..]) == Run(host, old(Model()), frames)
        decreases |frames| - i
      {
        assert frames[i..][1..] == frames[i + 1..];
        var broke := RunFrame(frames[i]);
        if broke {
          return;
        }
        i := i + 1;
      }
    }

    method Teardown(closeOk: bool)
      modifies this, loader
      ensures Model() == HostDriver.Teardown(host, old(Model()), closeOk)
    {
      var held := mod.Ok? && api.Ok? && api.value.owner == mod.value;
      var c := if held then [Call(loader.Model(), mod.value, "on_unload")] else [];
      log := log + (if UnbindFirst(host) then [Unbound] + c else c + [Unbound]);
      if mod.Ok? && mod.value != NULL_HANDLE {
        loader.Unload(mod.value, closeOk);
        log := log + [Unloaded(mod.value)];
      }
      log := log + Terminations(host);
    }

    method TeardownAsWritten(closeOk: bool)
      modifies this, loader
      ensures Model() == HostDriver.TeardownAsWritten(host, old(Model()), closeOk)
    {
      var c := if api.Ok? then Call(loader.Model(), api.value.owner, "on_unload") else EmptyRead("mod_api");
      log := log + (if UnbindFirst(host) then [Unbound, c] else [c, Unbound]);
      if mod.Err? {
        log := log + [EmptyRead("mod")];
      } else if mod.value != NULL_HANDLE {
        loader.Unload(mod.value, closeOk);
        log := log + [Unloaded(mod.value)];
      }
      log := log + Terminations(host);
    }

    /** The whole run of a fresh process, with the program's unconditional teardown. */
    method RunPlayer(path: string, l: Launch, frames: seq<Frame>, closeOk: bool) returns (ok: bool)
      requires log == []
      modifies this, loader
      ensures (ok, loader.Model(), log) == RunPlayerAsWritten(host, old(loader.Model()), path, l, frames, closeOk)
    {
      ok := Startup(path, l, closeOk);
      if !ok {
        return;
      }
      if RunsLoop(host) && mod.Ok? && api.Ok? {
        RunLoop(frames);
      }
      TeardownAsWritten(closeOk);
    }
  }
}
