/**
 * The Rust module functions of surge_core/src/module.rs over the same
 * abstract loader as the C++ one: `load` opens a library, `on_load`,
 * `on_unload` and `get_update_handle` look an entry point up and call or
 * hand it out, and `unload` consumes the library, calling its `on_unload`
 * before closing it. The calls made into a module are returned as a list.
 */
module RustModule {
  import opened Wrappers
  import opened Machine
  import opened ModuleLoader

  datatype ModuleError = LoadError | UnloadError | OnLoadCallError

  /** A call into a module's entry point. */
  datatype Call = Call(owner: Handle, entry: string)

  /** load: a failure of `Library::new` becomes `LoadError`. */
  function Load(s: Loader, name: string, opens: bool): (r: (Result<Handle, ModuleError>, Loader))
  {
    var (l, s2) := ModuleLoader.Load(s, name, opens);
    (if l.Ok? then Ok(l.value) else Err(LoadError), s2)
  }

  /** load fails exactly when the file is missing or does not open, and
      then with `LoadError` and nothing opened; otherwise it hands out the
      library of that file. */
  lemma LoadReportsLoadError(s: Loader, name: string, opens: bool)
    requires Valid(s)
    ensures var (r, s2) := Load(s, name, opens);
      && (r.Err? <==> !(opens && name in s.files))
      && (r.Err? ==> r.error == LoadError && s2 == s)
      && (r.Ok? ==> r.value in s2.loaded && s2.loaded[r.value] == Library(name, s.files[name]))
  {
    LoadOpensFreshHandle(s, name, opens);
  }

  /** The lookup of a `Symbol<fn() -> u32>` by name; any failure is
      reported as `OnLoadCallError`, whichever entry was asked for. */
  function Get(s: Loader, h: Handle, entry: string): (r: Result<Symbol, ModuleError>)
  {
    if entry in Exports(s, h) then Ok(Symbol(h, entry)) else Err(OnLoadCallError)
  }

  /** on_load: the module's `on_load` is called and its status returned as
      it is; `status` is what the module reports. */
  function OnLoad(s: Loader, h: Handle, status: u32): (r: (Result<u32, ModuleError>, seq<Call>))
  {
    match Get(s, h, "on_load")
    case Ok(_) => (Ok(status), [Call(h, "on_load")])
    case Err(e) => (Err(e), [])
  }

  /** on_unload: as on_load, for the module's `on_unload`. */
  function OnUnload(s: Loader, h: Handle, status: u32): (r: (Result<u32, ModuleError>, seq<Call>))
  {
    match Get(s, h, "on_unload")
    case Ok(_) => (Ok(status), [Call(h, "on_unload")])
    case Err(e) => (Err(e), [])
  }

  /** get_update_handle: the `update` symbol of the library, not called. */
  function GetUpdateHandle(s: Loader, h: Handle): (r: Result<Symbol, ModuleError>)
  {
    Get(s, h, "update")
  }

  /** on_load reports the module's status unchanged, a failing one
      included; only a missing symbol is an error, and then nothing is
      called. */
  lemma OnLoadPassesStatus(s: Loader, h: Handle, status: u32)
    ensures var (r, calls) := OnLoad(s, h, status);
      && (r.Ok? <==> "on_load" in Exports(s, h))
      && (r.Ok? ==> r.value == status && calls == [Call(h, "on_load")])
      && (r.Err? ==> calls == [])
  {
  }

  /** A missing `on_load`, `on_unload` or `update` is reported with the
      one error kind `OnLoadCallError`. */
  lemma MissingSymbolsShareOneError(s: Loader, h: Handle, status: u32)
    ensures "on_load" !in Exports(s, h) ==> OnLoad(s, h, status).0 == Err(OnLoadCallError)
    ensures "on_unload" !in Exports(s, h) ==> OnUnload(s, h, status).0 == Err(OnLoadCallError)
    ensures "update" !in Exports(s, h) ==> GetUpdateHandle(s, h) == Err(OnLoadCallError)
    ensures "update" in Exports(s, h) ==> GetUpdateHandle(s, h) == Ok(Symbol(h, "update"))
  {
  }

  /** unload: the library is taken by value; `on_unload` is called first
      and, when it cannot be found, `?` returns early and dropping the
      library closes it all the same. `closeOk` says whether the close
      succeeds; a failed close is `UnloadError`. */
  function Unload(s: Loader, h: Handle, status: u32, closeOk: bool): (r: (Result<(), ModuleError>, Loader, seq<Call>))
  {
    var (u, calls) := OnUnload(s, h, status);
    var s2 := ModuleLoader.Unload(s, h, closeOk);
    if u.Err? then (Err(u.error), s2, calls)
    else if closeOk then (Ok(()), s2, calls)
    else (Err(UnloadError), s2, calls)
  }

  /** unload succeeds exactly when `on_unload` exists and the close works;
      `on_unload` is the only call made and comes before the close, and the
      library is consumed on every path. */
  lemma UnloadCallsOnUnloadThenCloses(s: Loader, h: Handle, status: u32, closeOk: bool)
    requires Valid(s) && h != NULL_HANDLE
    ensures var (r, s2, calls) := Unload(s, h, status, closeOk);
      && (r.Ok? <==> "on_unload" in Exports(s, h) && closeOk)
      && ("on_unload" !in Exports(s, h) ==> r == Err(OnLoadCallError) && calls == [])
      && ("on_unload" in Exports(s, h) && !closeOk ==> r == Err(UnloadError))
      && ("on_unload" in Exports(s, h) ==> calls == [Call(h, "on_unload")])
      && (closeOk ==> h !in s2.loaded)
      && s2.files == s.files
  {
    UnloadClosesOnlyThatHandle(s, h, closeOk);
  }
}
