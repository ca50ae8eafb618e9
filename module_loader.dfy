/**
 * The module loader of core/src/sc_module.cpp and its earlier twin
 * core/src/module.cpp, which behave alike: a module is a shared library
 * found by path, opened into a handle, asked for its seven entry points by
 * name, closed again, and hot-reloaded by renaming a staged `<name>.new`
 * over its file.
 *
 * The operating system's loader and file system are abstract state: the
 * module files are a map from path to the set of names each file exports,
 * the open libraries a map from handle to the library, and whether
 * `dlopen`, `dlclose` or `rename` succeed on a file that exists is an input
 * of each call. Handle 0 is the null handle.
 */
module ModuleLoader {
  import opened Wrappers

  type Handle = nat

  const NULL_HANDLE: Handle := 0

  /** An open library: the path it was opened from and what it exports. */
  datatype Library = Library(path: string, exports: set<string>)

  /** Module files by path, open libraries by handle, and the handle the
      next successful open hands out. */
  datatype Loader = Loader(files: map<string, set<string>>, loaded: map<Handle, Library>, next: Handle)

  datatype Error = Loading | NameRetrieval | SymbolRetrieval

  /** A resolved entry point: the library it lives in and its name. */
  datatype Symbol = Symbol(owner: Handle, name: string)

  /** The resolved API of a module: every entry point is `Symbol(owner, n)`
      for one of the seven names. */
  datatype Api = Api(owner: Handle)

  /** Handles are never null and never reused. */
  predicate Valid(s: Loader)
  {
    s.next > 0 && forall h :: h in s.loaded ==> 0 < h < s.next
  }

  /** What a handle exports; a handle that is not open exports nothing. */
  function Exports(s: Loader, h: Handle): set<string>
  {
    if h in s.loaded then s.loaded[h].exports else {}
  }

  /** The entry points get_api resolves, in the order it resolves them. */
  const API_EXPORTS: seq<string> := ["on_load", "on_unload", "draw", "update", "keyboard_event", "mouse_button_event", "mouse_scroll_event"]

  /** get_func_addr: a lookup yields the symbol exactly when the module
      exports the name; a null address is `SymbolRetrieval`. */
  function FuncAddr(s: Loader, h: Handle, name: string): (r: Result<Symbol, Error>)
    ensures r.Ok? <==> name in Exports(s, h)
    ensures r.Ok? ==> r.value == Symbol(h, name)
    ensures r.Err? ==> r.error == SymbolRetrieval
  {
    if name in Exports(s, h) then Ok(Symbol(h, name)) else Err(SymbolRetrieval)
  }

  /** The index of the first of the seven names, from `i` on, that the
      export set lacks, or 7 when none is missing. */
  function FirstMissing(exports: set<string>, i: nat): (m: nat)
    requires i <= |API_EXPORTS|
    ensures i <= m <= |API_EXPORTS|
    ensures forall k :: i <= k < m ==> API_EXPORTS[k] in exports
    ensures m < |API_EXPORTS| ==> API_EXPORTS[m] !in exports
    decreases |API_EXPORTS| - i
  {
    if i == |API_EXPORTS| then i
    else if API_EXPORTS[i] !in exports then i
    else FirstMissing(exports, i + 1)
  }

  /** Every one of the seven names is exported. */
  predicate ExportsApi(exports: set<string>)
  {
    forall k :: 0 <= k < |API_EXPORTS| ==> API_EXPORTS[k] in exports
  }

  /** get_api: the seven lookups in their fixed order, stopping at the first
      that fails; `lookups` counts the lookups made. */
  function GetApi(s: Loader, h: Handle): (r: (nat, Result<Api, Error>))
  {
    var m := FirstMissing(Exports(s, h), 0);
    if m == |API_EXPORTS| then (m, Ok(Api(h))) else (m + 1, Err(SymbolRetrieval))
  }

  /** get_api succeeds exactly when all seven names are exported, with the
      API of that module. On failure the last lookup made is the first
      missing name, every earlier one resolved, and no later one was
      tried. */
  lemma GetApiChecksInOrder(s: Loader, h: Handle)
    ensures GetApi(s, h).1.Ok? <==> ExportsApi(Exports(s, h))
    ensures GetApi(s, h).1.Ok? ==> GetApi(s, h) == (|API_EXPORTS|, Ok(Api(h)))
    ensures GetApi(s, h).1.Err? ==>
      var n := GetApi(s, h).0;
      && GetApi(s, h).1.error == SymbolRetrieval
      && 1 <= n <= |API_EXPORTS|
      && API_EXPORTS[n - 1] !in Exports(s, h)
      && forall k :: 0 <= k < n - 1 ==> API_EXPORTS[k] in Exports(s, h)
  {
  }

  /** load: `dlopen` of the path; failure (no such file, or the open itself
      fails) is `Loading` and leaves everything as it was. */
  function Load(s: Loader, path: string, opens: bool): (r: (Result<Handle, Error>, Loader))
  {
    if opens && path in s.files then
      (Ok(s.next), s.(loaded := s.loaded[s.next := Library(path, s.files[path])], next := s.next + 1))
    else (Err(Loading), s)
  }

  /** A load succeeds exactly when the file exists and opens; the handle is
      fresh and non-null and names the file's library; nothing else
      changes. */
  lemma LoadOpensFreshHandle(s: Loader, path: string, opens: bool)
    requires Valid(s)
    ensures var (r, s2) := Load(s, path, opens);
      && Valid(s2)
      && s2.files == s.files
      && (r.Ok? <==> opens && path in s.files)
      && (r.Err? ==> r.error == Loading && s2 == s)
      && (r.Ok? ==>
            && r.value != NULL_HANDLE && r.value !in s.loaded
            && s2.loaded == s.loaded[r.value := Library(path, s.files[path])])
  {
  }

  /** unload: a null handle is left alone; otherwise the library is closed,
      and a failed close is only logged, so the result carries no error. */
  function Unload(s: Loader, h: Handle, closeOk: bool): (s2: Loader)
  {
    if h == NULL_HANDLE || !closeOk then s else s.(loaded := s.loaded - {h})
  }

  /** Unloading removes exactly the handle, and only when it is not null
      and the close succeeds. */
  lemma UnloadClosesOnlyThatHandle(s: Loader, h: Handle, closeOk: bool)
    requires Valid(s)
    ensures var s2 := Unload(s, h, closeOk);
      && Valid(s2)
      && s2.files == s.files && s2.next == s.next
      && (h == NULL_HANDLE ==> s2 == s)
      && (h != NULL_HANDLE && closeOk ==> h !in s2.loaded)
      && (!closeOk ==> s2 == s)
      && forall g :: g != h ==> (g in s2.loaded <==> g in s.loaded) && (g in s.loaded ==> s2.loaded[g] == s.loaded[g])
  {
  }

  /** The POSIX get_name: `dladdr` of the module's `on_load` symbol, which
      yields the file name the library was opened from. */
  function GetName(s: Loader, h: Handle): (r: Result<string, Error>)
    ensures r.Ok? <==> h in s.loaded && "on_load" in s.loaded[h].exports
    ensures r.Ok? ==> r.value == s.loaded[h].path
    ensures r.Err? ==> r.error == NameRetrieval
  {
    if h in s.loaded && "on_load" in s.loaded[h].exports then Ok(s.loaded[h].path) else Err(NameRetrieval)
  }

  /** `std::string::resize`: truncate, or pad with NULs. */
  function Resize(buf: string, n: nat): (r: string)
    ensures |r| == n
    ensures n <= |buf| ==> r == buf[..n]
    ensures n > |buf| ==> r[..|buf|] == buf && forall k :: |buf| <= k < n ==> r[k] == '\0'
  {
    if n <= |buf| then buf[..n] else buf + seq(n - |buf|, _ => '\0')
  }

  /** The Windows get_name: `buffer` is the `max_size` buffer after
      `GetModuleFileNameA` filled it and `reported` the length it
      returned. */
  function GetNameWindows(buffer: string, reported: nat): (r: Result<string, Error>)
  {
    if reported == 0 then Err(NameRetrieval) else Ok(Resize(buffer, reported))
  }

  /** A reported length of 0 is `NameRetrieval`; any other yields the
      buffer cut to exactly that length. */
  lemma GetNameWindowsTruncates(buffer: string, reported: nat)
    ensures GetNameWindows(buffer, reported).Err? <==> reported == 0
    ensures GetNameWindows(buffer, reported).Err? ==> GetNameWindows(buffer, reported).error == NameRetrieval
    ensures GetNameWindows(buffer, reported).Ok? ==> |GetNameWindows(buffer, reported).value| == reported
    ensures 0 < reported <= |buffer| ==> GetNameWindows(buffer, reported) == Ok(buffer[..reported])
  {
  }

  /** The staged file reload looks for. */
  function Staged(name: string): (p: string)
    ensures |p| == |name| + 4 && p[..|name|] == name
  {
    name + ".new"
  }

  /** `std::filesystem::rename` of an existing file over another. */
  function Rename(s: Loader, from: string, to: string): (s2: Loader)
    requires from in s.files
  {
    s.(files := s.files[to := s.files[from]] - {from})
  }

  /** reload: recover the file name (or fail with everything untouched),
      unload, then either reload the file unchanged when no `<name>.new`
      exists, or rename the staged file over it first; a failed rename is a
      null handle returned as a value, with no load. */
  function Reload(s: Loader, h: Handle, closeOk: bool, renameOk: bool, opens: bool): (r: (Result<Handle, Error>, Loader))
  {
    match GetName(s, h)
    case Err(e) => (Err(e), s)
    case Ok(name) =>
      var s1 := Unload(s, h, closeOk);
      if Staged(name) !in s1.files then Load(s1, name, opens)
      else if !renameOk then (Ok(NULL_HANDLE), s1)
      else Load(Rename(s1, Staged(name), name), name, opens)
  }

  /** Without a file name nothing is unloaded: the error comes back and the
      loader is untouched. */
  lemma ReloadKeepsModuleWithoutName(s: Loader, h: Handle, closeOk: bool, renameOk: bool, opens: bool)
    requires GetName(s, h).Err?
    ensures Reload(s, h, closeOk, renameOk, opens) == (Err(NameRetrieval), s)
  {
  }

  /** Once the name is known the old handle is closed on every path,
      including a failed rename and a failed load, and a new handle is
      never the old one. */
  lemma ReloadUnloadsFirst(s: Loader, h: Handle, closeOk: bool, renameOk: bool, opens: bool)
    requires Valid(s) && GetName(s, h).Ok? && closeOk
    ensures var (r, s2) := Reload(s, h, closeOk, renameOk, opens);
      && h !in s2.loaded
      && (r.Ok? ==> r.value != h)
  {
  }

  /** With no staged file the module file is reloaded as it is, the files
      untouched, and the reload fails only as its load does. */
  lemma ReloadWithoutStagedFile(s: Loader, h: Handle, closeOk: bool, renameOk: bool, opens: bool)
    requires Valid(s) && GetName(s, h).Ok? && Staged(GetName(s, h).value) !in s.files
    ensures var name := GetName(s, h).value;
      var (r, s2) := Reload(s, h, closeOk, renameOk, opens);
      && s2.files == s.files
      && (r.Ok? <==> opens && name in s.files)
      && (r.Err? ==> r.error == Loading)
      && (r.Ok? ==> r.value != NULL_HANDLE && s2.loaded[r.value] == Library(name, s.files[name]))
  {
  }

  /** A staged file is renamed over the module file and the reloaded
      module is the staged one; the staged path is gone afterwards. */
  lemma ReloadPicksStagedFile(s: Loader, h: Handle, closeOk: bool, opens: bool)
    requires Valid(s) && GetName(s, h).Ok? && Staged(GetName(s, h).value) in s.files
    ensures var name := GetName(s, h).value;
      var (r, s2) := Reload(s, h, closeOk, true, opens);
      && Staged(name) !in s2.files
      && s2.files[name] == s.files[Staged(name)]
      && (r.Ok? <==> opens)
      && (r.Ok? ==> r.value != NULL_HANDLE && s2.loaded[r.value] == Library(name, s.files[Staged(name)]))
  {
  }

  /** A failed rename returns the null handle as a success value and loads
      nothing: the files stay and only the old handle is gone. */
  lemma ReloadRenameFailureLoadsNothing(s: Loader, h: Handle, closeOk: bool, opens: bool)
    requires Valid(s) && GetName(s, h).Ok? && Staged(GetName(s, h).value) in s.files
    ensures Reload(s, h, closeOk, false, opens) == (Ok(NULL_HANDLE), Unload(s, h, closeOk))
    ensures Reload(s, h, closeOk, false, opens).1.files == s.files
  {
  }

  /** What a reload leaves open: what was open before, less the old handle
      when its close succeeded, plus the returned handle when one was
      opened; the loader stays valid. */
  lemma ReloadSwapsHandle(s: Loader, h: Handle, closeOk: bool, renameOk: bool, opens: bool)
    requires Valid(s)
    ensures var (r, s2) := Reload(s, h, closeOk, renameOk, opens);
      && Valid(s2)
      && s2.next >= s.next
      && (forall g :: g in s2.loaded ==> g in s.loaded || (r.Ok? && g == r.value))
      && (closeOk && r.Ok? ==> h !in s2.loaded)
      && (closeOk && GetName(s, h).Ok? ==> h !in s2.loaded)
      && (r.Ok? && r.value != NULL_HANDLE ==> r.value in s2.loaded && r.value !in s.loaded)
      && (forall g :: g in s.loaded && g != h ==> g in s2.loaded && s2.loaded[g] == s.loaded[g])
  {
    match GetName(s, h)
    case Err(_) =>
    case Ok(name) =>
      var s1 := Unload(s, h, closeOk);
      UnloadClosesOnlyThatHandle(s, h, closeOk);
      if Staged(name) !in s1.files {
        LoadOpensFreshHandle(s1, name, opens);
      } else if renameOk {
        LoadOpensFreshHandle(Rename(s1, Staged(name), name), name, opens);
      }
  }
}

/** The loader as the process-wide state the functions of sc_module.cpp
    change in place. */
module ModuleLoaderObject {
  import opened Wrappers
  import opened ModuleLoader

  class LoaderState {
    var files: map<string, set<string>>
    var loaded: map<Handle, Library>
    var next: Handle

    function Model(): Loader
      reads this
    {
      Loader(files, loaded, next)
    }

    constructor (files0: map<string, set<string>>)
      ensures Model() == Loader(files0, map[], 1) && Valid(Model())
    {
      files := files0;
      loaded := map[];
      next := 1;
    }

    method Load(path: string, opens: bool) returns (r: Result<Handle, Error>)
      modifies this
      ensures (r, Model()) == ModuleLoader.Load(old(Model()), path, opens)
      ensures old(Valid(Model())) ==> Valid(Model())
    {
      if !opens || path !in files {
        return Err(Loading);
      }
      loaded := loaded[next := Library(path, files[path])];
      r := Ok(next);
      next := next + 1;
    }

    method Unload(h: Handle, closeOk: bool)
      modifies this
      ensures Model() == ModuleLoader.Unload(old(Model()), h, closeOk)
    {
      if h == NULL_HANDLE {
        return;
      }
      if closeOk {
        loaded := loaded - {h};
      }
    }

    method Reload(h: Handle, closeOk: bool, renameOk: bool, opens: bool) returns (r: Result<Handle, Error>)
      modifies this
      ensures (r, Model()) == ModuleLoader.Reload(old(Model()), h, closeOk, renameOk, opens)
      ensures old(Valid(Model())) ==> Valid(Model())
    {
      ghost var s0 := Model();
      if Valid(s0) {
        ReloadSwapsHandle(s0, h, closeOk, renameOk, opens);
      }
      var name := GetName(Model(), h);
      if name.Err? {
        return Err(name.error);
      }
      Unload(h, closeOk);
      var staged := Staged(name.value);
      if staged in files {
        if !renameOk {
          return Ok(NULL_HANDLE);
        }
        files := files[name.value := files[staged]] - {staged};
      }
      r := Load(name.value, opens);
    }
  }
}
