/**
 * The module manager of surge_player/source/module_manager.cpp: `load`
 * opens a module and insists on its seven entry points, `reload` recovers
 * the file name, unloads and loads again, and `on_load`/`on_unload` bind
 * and unbind the window's input callbacks around the module's own hooks.
 * A null handle is ignored by every function that takes one.
 *
 * The loader is the abstract one of the C++ core; the window callbacks and
 * the calls into the module are recorded as events. Whether `dlopen`,
 * `dlclose` and `strdup` succeed are inputs.
 */
module ModuleManager {
  import opened Wrappers
  import opened ModuleLoader
  import opened HostEvents

  /** The loader and everything done so far. */
  datatype World = World(ld: Loader, log: seq<Event>)

  /** load as written: `dlopen`, then the seven lookups; a missing entry
      point returns null but leaves the opened library open. */
  function LoadAsWritten(w: World, path: string, opens: bool): (r: (Handle, World))
  {
    match ModuleLoader.Load(w.ld, path, opens)
    case (Err(_), _) => (NULL_HANDLE, w)
    case (Ok(h), ld2) => (if ExportsApi(Exports(ld2, h)) then h else NULL_HANDLE, w.(ld := ld2))
  }

  /** A library with only `on_load` is left open by the as-written load
      while null is returned, so nothing can ever close it. */
  lemma LoadAsWrittenLeaksIncompleteModule()
    ensures var w := World(Loader(map["m.so" := {"on_load"}], map[], 1), []);
      var (h, w2) := LoadAsWritten(w, "m.so", true);
      h == NULL_HANDLE && 1 in w2.ld.loaded && w2.ld.loaded.Keys != w.ld.loaded.Keys
  {
    var w := World(Loader(map["m.so" := {"on_load"}], map[], 1), []);
    assert API_EXPORTS[1] !in Exports(LoadAsWritten(w, "m.so", true).1.ld, 1);
  }

  /** load, corrected: the library that lacks an entry point is closed
      before null is returned. */
  function Load(w: World, path: string, opens: bool, closeOk: bool): (r: (Handle, World))
  {
    match ModuleLoader.Load(w.ld, path, opens)
    case (Err(_), _) => (NULL_HANDLE, w)
    case (Ok(h), ld2) =>
      if ExportsApi(Exports(ld2, h)) then (h, w.(ld := ld2))
      else (NULL_HANDLE, w.(ld := ModuleLoader.Unload(ld2, h, closeOk)))
  }

  /** The corrected load returns a handle exactly when the file opens and
      exports all seven entry points, and then an open one; when it returns
      null and the close works, the open libraries are as they were. */
  lemma LoadReturnsOnlyCompleteModules(w: World, path: string, opens: bool, closeOk: bool)
    requires Valid(w.ld)
    ensures var (h, w2) := Load(w, path, opens, closeOk);
      && Valid(w2.ld)
      && w2.log == w.log
      && w2.ld.files == w.ld.files
      && (h != NULL_HANDLE <==> opens && path in w.ld.files && ExportsApi(w.ld.files[path]))
      && (h != NULL_HANDLE ==> h in w2.ld.loaded && w2.ld.loaded[h] == Library(path, w.ld.files[path]))
      && (h != NULL_HANDLE ==> w2.ld.loaded == w.ld.loaded[h := Library(path, w.ld.files[path])])
      && (h == NULL_HANDLE && closeOk ==> w2.ld.loaded == w.ld.loaded)
  {
    LoadOpensFreshHandle(w.ld, path, opens);
    match ModuleLoader.Load(w.ld, path, opens)
    case (Err(_), _) =>
    case (Ok(h), ld2) =>
      UnloadClosesOnlyThatHandle(ld2, h, closeOk);
      if closeOk && !ExportsApi(Exports(ld2, h)) {
        assert ModuleLoader.Unload(ld2, h, closeOk).loaded == w.ld.loaded;
      }
  }

  /** unload: null is ignored; otherwise the library is closed, and a
      failed close is only logged. */
  function Unload(w: World, h: Handle, closeOk: bool): (r: World)
  {
    if h == NULL_HANDLE then w
    else World(ModuleLoader.Unload(w.ld, h, closeOk), w.log + [Unloaded(h)])
  }

  /** on_load: the input callbacks are bound, then the module's `on_load`
      is called. */
  function OnLoad(w: World, h: Handle): (r: World)
  {
    if h == NULL_HANDLE then w
    else w.(log := w.log + [Bound(h), Call(w.ld, h, "on_load")])
  }

  /** on_unload: the module's `on_unload` is called, then the callbacks are
      cleared. */
  function OnUnload(w: World, h: Handle): (r: World)
  {
    if h == NULL_HANDLE then w
    else w.(log := w.log + [Call(w.ld, h, "on_unload"), Unbound])
  }

  function Update(w: World, h: Handle): (r: World)
  {
    if h == NULL_HANDLE then w else w.(log := w.log + [Call(w.ld, h, "update")])
  }

  function Draw(w: World, h: Handle): (r: World)
  {
    if h == NULL_HANDLE then w else w.(log := w.log + [Call(w.ld, h, "draw")])
  }

  /** Every function taking a handle does nothing for the null handle. */
  lemma NullHandleIsIgnored(w: World, closeOk: bool)
    ensures Unload(w, NULL_HANDLE, closeOk) == w
    ensures OnLoad(w, NULL_HANDLE) == w && OnUnload(w, NULL_HANDLE) == w
    ensures Update(w, NULL_HANDLE) == w && Draw(w, NULL_HANDLE) == w
  {
  }

  /** On a complete, open module, on_load binds before it calls and
      on_unload calls before it unbinds, and every call is live. */
  lemma HooksOrderCallbacks(w: World, h: Handle)
    requires h != NULL_HANDLE && h in w.ld.loaded && ExportsApi(w.ld.loaded[h].exports)
    ensures OnLoad(w, h).log == w.log + [Bound(h), Called(h, "on_load", true)]
    ensures OnUnload(w, h).log == w.log + [Called(h, "on_unload", true), Unbound]
    ensures Update(w, h).log == w.log + [Called(h, "update", true)]
    ensures Draw(w, h).log == w.log + [Called(h, "draw", true)]
  {
    assert API_EXPORTS[0] == "on_load" && API_EXPORTS[1] == "on_unload";
    assert API_EXPORTS[2] == "draw" && API_EXPORTS[3] == "update";
  }

  /** reload: `dladdr` of the module's `on_unload` names its file (failing
      when the module does not export it), the name is copied (`dupOk`),
      then on_unload, unload and a load of the copied name; a failed load
      returns null without on_load, a successful one gets on_load. */
  function Reload(w: World, h: Handle, dupOk: bool, closeOk: bool, opens: bool): (r: (Handle, World))
  {
    if "on_unload" !in Exports(w.ld, h) || !dupOk then (NULL_HANDLE, w)
    else
      var name := w.ld.loaded[h].path;
      var w2 := Unload(OnUnload(w, h), h, closeOk);
      var (hn, w3) := Load(w2, name, opens, closeOk);
      if hn == NULL_HANDLE then (NULL_HANDLE, w3) else (hn, OnLoad(w3, hn))
  }

  /** When `dladdr` or the copy fails, null comes back and the old module
      stays loaded with nothing called. */
  lemma ReloadWithoutNameKeepsModule(w: World, h: Handle, dupOk: bool, closeOk: bool, opens: bool)
    requires "on_unload" !in Exports(w.ld, h) || !dupOk
    ensures Reload(w, h, dupOk, closeOk, opens) == (NULL_HANDLE, w)
  {
  }

  /** A reload of a complete, open module calls its on_unload, unbinds and
      unloads it, and then either returns null with nothing more done, or
      binds and calls on_load on the new, complete module, which is
      returned. */
  lemma ReloadOrder(w: World, h: Handle, closeOk: bool, opens: bool)
    requires Valid(w.ld) && h in w.ld.loaded && ExportsApi(w.ld.loaded[h].exports)
    ensures var (hn, w2) := Reload(w, h, true, closeOk, opens);
      var path := w.ld.loaded[h].path;
      var gone := [Called(h, "on_unload", true), Unbound, Unloaded(h)];
      && (hn == NULL_HANDLE ==> w2.log == w.log + gone)
      && (hn != NULL_HANDLE ==>
            && w2.log == w.log + gone + [Bound(hn), Called(hn, "on_load", true)]
            && hn in w2.ld.loaded && w2.ld.loaded[hn].path == path
            && ExportsApi(w2.ld.loaded[hn].exports))
      && (closeOk ==> h !in w2.ld.loaded)
  {
    assert API_EXPORTS[1] == "on_unload";
    var w1 := OnUnload(w, h);
    HooksOrderCallbacks(w, h);
    var w2 := Unload(w1, h, closeOk);
    UnloadClosesOnlyThatHandle(w1.ld, h, closeOk);
    LoadReturnsOnlyCompleteModules(w2, w.ld.loaded[h].path, opens, closeOk);
    var (hn, w3) := Load(w2, w.ld.loaded[h].path, opens, closeOk);
    if hn != NULL_HANDLE {
      HooksOrderCallbacks(w3, hn);
    }
  }
}

/** The module manager acting on the process's loader object, with the
    window's callback bindings recorded. */
module ModuleManagerObject {
  import opened Wrappers
  import opened ModuleLoader
  import opened HostEvents
  import opened ModuleManager
  import opened ModuleLoaderObject

  class Manager {
    const loader: LoaderState
    var log: seq<Event>

    function Model(): World
      reads this, loader
    {
      World(loader.Model(), log)
    }

    constructor (l: LoaderState)
      ensures loader == l && log == []
    {
      loader := l;
      log := [];
    }

    method Load(path: string, opens: bool, closeOk: bool) returns (h: Handle)
      modifies loader
      ensures (h, Model()) == ModuleManager.Load(old(Model()), path, opens, closeOk)
    {
      var r := loader.Load(path, opens);
      if r.Err? {
        return NULL_HANDLE;
      }
      h := r.value;
      if !ExportsApi(Exports(loader.Model(), h)) {
        loader.Unload(h, closeOk);
        h := NULL_HANDLE;
      }
    }

    method Unload(h: Handle, closeOk: bool)
      modifies this, loader
      ensures Model() == ModuleManager.Unload(old(Model()), h, closeOk)
    {
      if h == NULL_HANDLE {
        return;
      }
      loader.Unload(h, closeOk);
      log := log + [Unloaded(h)];
    }

    method OnLoad(h: Handle)
      modifies this
      ensures Model() == ModuleManager.OnLoad(old(Model()), h)
    {
      if h == NULL_HANDLE {
        return;
      }
      log := log + [Bound(h)];
      log := log + [Call(loader.Model(), h, "on_load")];
    }

    method OnUnload(h: Handle)
      modifies this
      ensures Model() == ModuleManager.OnUnload(old(Model()), h)
    {
      if h == NULL_HANDLE {
        return;
      }
      log := log + [Call(loader.Model(), h, "on_unload")];
      log := log + [Unbound];
    }

    method Update(h: Handle)
      modifies this
      ensures Model() == ModuleManager.Update(old(Model()), h)
    {
      if h != NULL_HANDLE {
        log := log + [Call(loader.Model(), h, "update")];
      }
    }

    method Draw(h: Handle)
      modifies this
      ensures Model() == ModuleManager.Draw(old(Model()), h)
    {
      if h != NULL_HANDLE {
        log := log + [Call(loader.Model(), h, "draw")];
      }
    }

    method Reload(h: Handle, dupOk: bool, closeOk: bool, opens: bool) returns (hn: Handle)
      modifies this, loader
      ensures (hn, Model()) == ModuleManager.Reload(old(Model()), h, dupOk, closeOk, opens)
    {
      if "on_unload" !in Exports(loader.Model(), h) || !dupOk {
        return NULL_HANDLE;
      }
      var name := loader.loaded[h].path;
      OnUnload(h);
      Unload(h, closeOk);
      hn := Load(name, opens, closeOk);
      if hn == NULL_HANDLE {
        return;
      }
      OnLoad(hn);
    }
  }
}
