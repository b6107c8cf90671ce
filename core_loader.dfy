/**
 * Loading a libretro core: open the shared library, look up the seventeen
 * `retro_*` entry points by name and keep them, with the library handle, in a
 * function table. A symbol the library does not export is stored as null; only
 * a library that fails to open makes the load fail.
 */
module CoreLoader {
  import opened Wrappers

  /** The address a symbol resolves to: never 0, which is the null pointer; a null lookup is `None`. */
  type Address = a: nat | a > 0 witness 1

  /** An opaque handle of an opened shared library: never 0, which is the null handle. */
  type Handle = h: nat | h > 0 witness 1

  /**
   * A shared library as the dynamic loader sees it: its handle and its symbol
   * lookup, which gives null (`None`) for a name the library does not export.
   */
  datatype Library = Library(handle: Handle, lookup: string -> Option<Address>)

  /** `LOAD_SYMBOL`: look `name` up in `lib`; an abstraction of `dlsym`. */
  function Symbol(lib: Library, name: string): (r: Option<Address>)
  {
    lib.lookup(name)
  }

  /** Whether `lib` exports `name`. */
  predicate Exports(lib: Library, name: string)
  {
    lib.lookup(name).Some?
  }

  /** One value per entry point of the core, in the order `core_functions_t` declares them. */
  datatype EntryPoints<T> = EntryPoints(
    init: T, deinit: T, run: T, reset: T, getInfo: T, loadGame: T, unloadGame: T,
    setEnvironment: T, setVideoRefresh: T, setAudioSample: T, setAudioSampleBatch: T,
    setInputPoll: T, setInputState: T,
    serialize: T, serializeSize: T, unserialize: T, getSystemAvInfo: T)
  {
    /** The seventeen values in declaration order. */
    function Seq(): seq<T>
    {
      [init, deinit, run, reset, getInfo, loadGame, unloadGame,
       setEnvironment, setVideoRefresh, setAudioSample, setAudioSampleBatch,
       setInputPoll, setInputState,
       serialize, serializeSize, unserialize, getSystemAvInfo]
    }

    /** Apply `f` to every entry. */
    function Map<U>(f: T -> U): EntryPoints<U>
    {
      EntryPoints(
        f(init), f(deinit), f(run), f(reset), f(getInfo), f(loadGame), f(unloadGame),
        f(setEnvironment), f(setVideoRefresh), f(setAudioSample), f(setAudioSampleBatch),
        f(setInputPoll), f(setInputState),
        f(serialize), f(serializeSize), f(unserialize), f(getSystemAvInfo))
    }
  }

  /** The symbol name `load_core` looks up for each entry point. */
  const SymbolNames: EntryPoints<string> := EntryPoints(
    "retro_init", "retro_deinit", "retro_run", "retro_reset",
    "retro_get_system_info", "retro_load_game", "retro_unload_game",
    "retro_set_environment", "retro_set_video_refresh", "retro_set_audio_sample",
    "retro_set_audio_sample_batch", "retro_set_input_poll", "retro_set_input_state",
    "retro_serialize", "retro_serialize_size", "retro_unserialize", "retro_get_system_av_info")

  /** The table a load binds from `lib`: every entry holds the lookup of its own name. */
  function Bind(lib: Library): (t: EntryPoints<Option<Address>>)
  {
    SymbolNames.Map(name => Symbol(lib, name))
  }

  /** The bound table written out entry by entry, as `load_core` fills it. */
  lemma BindSpelledOut(lib: Library)
    ensures Bind(lib) == EntryPoints(
      Symbol(lib, "retro_init"), Symbol(lib, "retro_deinit"), Symbol(lib, "retro_run"),
      Symbol(lib, "retro_reset"), Symbol(lib, "retro_get_system_info"),
      Symbol(lib, "retro_load_game"), Symbol(lib, "retro_unload_game"),
      Symbol(lib, "retro_set_environment"), Symbol(lib, "retro_set_video_refresh"),
      Symbol(lib, "retro_set_audio_sample"), Symbol(lib, "retro_set_audio_sample_batch"),
      Symbol(lib, "retro_set_input_poll"), Symbol(lib, "retro_set_input_state"),
      Symbol(lib, "retro_serialize"), Symbol(lib, "retro_serialize_size"),
      Symbol(lib, "retro_unserialize"), Symbol(lib, "retro_get_system_av_info"))
  {
  }

  /** The positions, in declaration order, of the entries left null. */
  function NullEntries(t: EntryPoints<Option<Address>>): (s: set<nat>)
  {
    set i: nat | i < |t.Seq()| && t.Seq()[i] == None
  }

  /** The dynamic loader: the libraries it can open, by path, and the handles currently open. */
  class Linker {
    const libraries: map<string, Library>
    var open: multiset<Handle>

    constructor (libraries: map<string, Library>)
      ensures this.libraries == libraries && open == multiset{}
    {
      this.libraries := libraries;
      open := multiset{};
    }

    /** `LOAD_LIBRARY`: a missing or unloadable path gives null. */
    method LoadLibrary(path: string) returns (lib: Option<Library>)
      modifies this
      ensures lib == if path in libraries then Some(libraries[path]) else None
      ensures open == if lib.Some? then old(open) + multiset{lib.value.handle} else old(open)
    {
      if path in libraries {
        lib := Some(libraries[path]);
        open := open + multiset{lib.value.handle};
      } else {
        lib := None;
      }
    }

    /** `UNLOAD_LIBRARY`: closing a handle that is not open is undefined, so callers must not. */
    method UnloadLibrary(h: Handle)
      requires h in open
      modifies this
      ensures open == old(open) - multiset{h}
    {
      open := open - multiset{h};
    }
  }

  /** `core_functions_t`: the entry-point table, then the library handle. */
  class CoreFunctions {
    var table: EntryPoints<Option<Address>>
    var handle: Handle
    ghost var released: bool  // set once the table has been freed and its library closed
  }

  /**
   * `load_core`: null exactly when the library fails to open; otherwise a new
   * table whose fields hold the lookups of their names, null ones included.
   */
  method LoadCore(linker: Linker, filename: string) returns (core: CoreFunctions?)
    modifies linker
    ensures core == null <==> filename !in linker.libraries
    ensures core == null ==> linker.open == old(linker.open)
    ensures core != null ==>
      var lib := linker.libraries[filename];
      && fresh(core)
      && !core.released
      && core.handle == lib.handle
      && core.table == Bind(lib)
      && linker.open == old(linker.open) + multiset{lib.handle}
  {
    var libhandle := linker.LoadLibrary(filename);
    if libhandle.None? {
      return null;
    }
    var lib := libhandle.value;

    var fns := new CoreFunctions;  // like `malloc`, the table starts with arbitrary contents
    fns.table := fns.table.(init                := Symbol(lib, "retro_init"));
    fns.table := fns.table.(deinit              := Symbol(lib, "retro_deinit"));
    fns.table := fns.table.(run                 := Symbol(lib, "retro_run"));
    fns.table := fns.table.(reset               := Symbol(lib, "retro_reset"));
    fns.table := fns.table.(getInfo             := Symbol(lib, "retro_get_system_info"));
    fns.table := fns.table.(loadGame            := Symbol(lib, "retro_load_game"));
    fns.table := fns.table.(unloadGame          := Symbol(lib, "retro_unload_game"));

    fns.table := fns.table.(setEnvironment      := Symbol(lib, "retro_set_environment"));
    fns.table := fns.table.(setVideoRefresh     := Symbol(lib, "retro_set_video_refresh"));
    fns.table := fns.table.(setAudioSample      := Symbol(lib, "retro_set_audio_sample"));
    fns.table := fns.table.(setAudioSampleBatch := Symbol(lib, "retro_set_audio_sample_batch"));
    fns.table := fns.table.(setInputPoll        := Symbol(lib, "retro_set_input_poll"));
    fns.table := fns.table.(setInputState       := Symbol(lib, "retro_set_input_state"));

    fns.table := fns.table.(serialize           := Symbol(lib, "retro_serialize"));
    fns.table := fns.table.(serializeSize       := Symbol(lib, "retro_serialize_size"));
    fns.table := fns.table.(unserialize         := Symbol(lib, "retro_unserialize"));
    fns.table := fns.table.(getSystemAvInfo     := Symbol(lib, "retro_get_system_av_info"));
    fns.handle := lib.handle;
    fns.released := false;
    BindSpelledOut(lib);

    core := fns;
  }

  /** `unload_core`: close the table's library and free the table; a table is released once. */
  method UnloadCore(linker: Linker, core: CoreFunctions)
    requires !core.released && core.handle in linker.open
    modifies linker, core`released
    ensures core.released
    ensures linker.open == old(linker.open) - multiset{core.handle}
  {
    linker.UnloadLibrary(core.handle);
    core.released := true;
  }

  /** Entry `i` of the bound table is null exactly when the library does not export the `i`-th name. */
  lemma BindNullExactlyWhenMissing(lib: Library)
    ensures forall i :: 0 <= i < |SymbolNames.Seq()| ==>
      (Bind(lib).Seq()[i] == None <==> !Exports(lib, SymbolNames.Seq()[i]))
  {
  }

  /** The seventeen names are pairwise distinct: no two fields look up the same entry point. */
  lemma SymbolNamesDistinct()
    ensures forall i, j :: 0 <= i < j < |SymbolNames.Seq()| ==> SymbolNames.Seq()[i] != SymbolNames.Seq()[j]
  {
  }

  /** A library exporting every entry point binds a table with no null entry. */
  lemma CompleteLibraryBindsEverything(lib: Library)
    requires forall i :: 0 <= i < |SymbolNames.Seq()| ==> Exports(lib, SymbolNames.Seq()[i])
    ensures NullEntries(Bind(lib)) == {}
  {
    BindNullExactlyWhenMissing(lib);
  }

  /**
   * A missing entry point is not rejected: a library lacking exactly one of
   * the names still binds, with null in that entry and in no other.
   */
  lemma OneMissingSymbolLeavesOneNull(lib: Library, k: nat)
    requires k < |SymbolNames.Seq()|
    requires !Exports(lib, SymbolNames.Seq()[k])
    requires forall i :: 0 <= i < |SymbolNames.Seq()| && i != k ==> Exports(lib, SymbolNames.Seq()[i])
    ensures NullEntries(Bind(lib)) == {k}
  {
    BindNullExactlyWhenMissing(lib);
  }

  /**
   * A library that lacks exactly one of the seventeen names leaves exactly the
   * entry looked up by that name null: no other field shares the name.
   */
  lemma LibraryLackingOneNameLeavesOneNull(lib: Library, k: nat)
    requires k < |SymbolNames.Seq()|
    requires forall i :: 0 <= i < |SymbolNames.Seq()| ==>
      (Exports(lib, SymbolNames.Seq()[i]) <==> SymbolNames.Seq()[i] != SymbolNames.Seq()[k])
    ensures NullEntries(Bind(lib)) == {k}
  {
    SymbolNamesDistinct();
    OneMissingSymbolLeavesOneNull(lib, k);
  }
}
