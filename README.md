# dolphin_embed libretro host, modelled in Dafny

dolphin_embed is a small libretro frontend. It opens an emulator core built
as a shared library (`libdolphin.so`) and binds the core's seventeen
`retro_*` entry points into a function table. It then registers two host
callbacks with the core: the environment callback and the video-refresh
callback. This project models the host-side logic in `src/main.c`:

- **Environment callback** (`env_callback`): the core calls it with a command
  code and a pointer to a payload the core owns. The host answers "handled" or
  "not handled". For three commands it also writes through the pointer: a
  directory path, or the host's logging function. The host keeps no state.
  Module `Environment` models the command set as a datatype. The payload is a
  class with two slots, standing for two separate buffers of the core: `path`
  is the core's `const char *` variable that the directory commands fill, and
  `log` is the `log` field of the core's `retro_log_callback` variable that
  GET_LOG_INTERFACE fills. `EnvCallback` is a method that modifies the payload.
  `Handled` and `Effect` are the functions that specify it. `Replay` models
  the core calling the callback any number of times, each time passing the
  variable of the type the command expects.
- **Core loading** (`load_core`, `unload_core`): module `CoreLoader`. The
  dynamic loader is a `Linker` object. It holds the libraries that can be
  opened, by path, and the handles that are currently open. A library is its
  handle plus a symbol lookup that may return null. `LoadCore` fills a fresh
  `CoreFunctions` table entry by entry, in the source's order. `Bind` is the
  table it must produce.
- **Video refresh** (`video_update`): module `Video`. A null frame returns at
  once. A non-null frame is reported by width, height and pitch only.

Three places where the code does less than a libretro frontend could; the
model follows the code:

- A frontend could refuse a core that lacks an entry point. This one stores
  the null pointer and returns the table (`OneMissingSymbolLeavesOneNull`,
  `LibraryLackingOneNameLeavesOneNull`).
- SET_PIXEL_FORMAT is only printed. The host neither validates nor stores the
  format, and returns true.
- The hardware-render commands have no case of their own, so they fall into
  the default arm (`Other`) and return false.

The numeric command codes are defined in `libretro.h`, which is not part of
this model. The model assumes no numbers. `Other(code)` stands for every code
that matches none of the switch's named cases. Its `code` is assumed to differ
from the eight named codes; the datatype does not enforce that.

## Model

| member | source | states |
|---|---|---|
| `Environment.Handled` | src/main.c:103-128 | The callback returns true exactly for SET_PIXEL_FORMAT, GET_SYSTEM_DIRECTORY, GET_SAVE_DIRECTORY, SET_MINIMUM_AUDIO_LATENCY, SET_MEMORY_MAPS and GET_LOG_INTERFACE. It returns false for every other command, unknown codes included. |
| `Environment.Effect` | src/main.c:110-124 | A path is written exactly for the two directory commands, and it is one of the two fixed directories. The `log` slot is written exactly for GET_LOG_INTERFACE, with the host's logging callback. Nothing is written for a command that is not handled. |
| `Environment.EnvCallback` | src/main.c:103-128 | Returns `Handled(cmd)`. The payload afterwards is the old payload with `Effect(cmd)` applied. When the command writes nothing, the payload object is unchanged. The payload pointer may be null for every command except the four whose arms dereference it (src/main.c:106, 111, 114, 123). |
| `Environment.RefusedCommandsWriteNothing` | src/main.c:104-127 | GET_VARIABLE, GET_VARIABLE_UPDATE and every unlisted code return false and leave the payload as it was. |
| `Environment.SetCommandsWriteNothing` | src/main.c:105-121 | SET_PIXEL_FORMAT, SET_MINIMUM_AUDIO_LATENCY and SET_MEMORY_MAPS return true and leave the payload as it was. |
| `Environment.DirectoryCommands` | src/main.c:110-115 | GET_SYSTEM_DIRECTORY writes the system path and GET_SAVE_DIRECTORY writes the save path. Neither touches the `log` slot. The two paths differ. |
| `Environment.LogInterfaceCommand` | src/main.c:122-124 | GET_LOG_INTERFACE is handled and sets only the `log` slot, to `logging_callback`. |
| `Environment.ReplayAppend` | src/main.c:103-128 | Answering `a` and then `b` leaves the payload as answering `a + b` in one run. |
| `Environment.ReplayLastWriteWins` | src/main.c:103-128 | After any sequence of calls, the core's path variable holds the last path written and its `log` field the last sink written. A variable no call writes keeps its old value. |
| `Environment.ReplayTwice` | src/main.c:103-128 | Repeating a sequence of calls leaves the payload exactly as running it once. |
| `Environment.LastPathIsFixed` | src/main.c:110-115 | The last path a sequence of calls writes is absent, the system path or the save path. |
| `Environment.LastLogIsHost` | src/main.c:122-124 | The last log sink a sequence of calls writes is absent or the host's `logging_callback`. |
| `Environment.ReplayWritesOnlyFixedValues` | src/main.c:110-124 | Whatever the core asks, its path variable ends up with its old value or one of the two fixed directories. Its `log` field ends up with its old value or `logging_callback`. |
| `Environment.ReplayWithoutWrites` | src/main.c:104-127 | A sequence of calls whose commands write nothing leaves the payload unchanged. This covers the SET commands, the variable queries and unknown codes. |
| `Video.VideoUpdate` | src/main.c:130-134 | A null frame gives no report. A non-null frame gives a report of exactly its width, height and pitch. |
| `Video.NullFrameReadsNothing` | src/main.c:131 | With a null frame, the result does not depend on width, height or pitch. |
| `Video.FramePixelsNotRead` | src/main.c:133 | With a non-null frame, the result does not depend on the pixel data. |
| `CoreLoader.Linker.LoadLibrary` | src/main.c:18 | Opening a path the loader cannot open gives null and opens nothing. Otherwise it gives that library and adds its handle to the open handles. |
| `CoreLoader.Linker.UnloadLibrary` | src/main.c:19 | Closing removes one reference to the handle from the open handles. |
| `CoreLoader.LoadCore` | src/main.c:59-88 | Returns null exactly when the library fails to open, and then no handle is opened. Otherwise it returns a fresh table holding the opened handle. Each of the seventeen entries holds the lookup of its own `retro_*` name, null included (`Bind`). |
| `CoreLoader.UnloadCore` | src/main.c:90-93 | Closes the table's handle and releases the table. It may be called once per loaded table. |
| `CoreLoader.BindSpelledOut` | src/main.c:66-84 | The bound table, entry by entry: `init` holds the lookup of `retro_init`, `deinit` that of `retro_deinit`, and so on for all seventeen entries. |
| `CoreLoader.BindNullExactlyWhenMissing` | src/main.c:66-84 | Entry `i` is null exactly when the library does not export the `i`-th name. |
| `CoreLoader.SymbolNamesDistinct` | src/main.c:66-84 | The seventeen names looked up are pairwise distinct. |
| `CoreLoader.CompleteLibraryBindsEverything` | src/main.c:66-85 | A library that exports all seventeen names yields a table with no null entry. |
| `CoreLoader.OneMissingSymbolLeavesOneNull` | src/main.c:66-87 | Binding a library that lacks exactly one name gives a table whose only null entry is that one. No field is checked, so `LoadCore` still returns the table. |
| `CoreLoader.LibraryLackingOneNameLeavesOneNull` | src/main.c:66-87 | A library that lacks exactly one of the seventeen names, whatever else it exports, leaves exactly the entry of that name null. The seventeen names are distinct, so no other entry is affected. |

## Left out

- `logging_callback` (src/main.c:95-101) forwards a format string to `vprintf`. That is console output, so it is modelled only as the value `LoggingCallback` stored in the `log` slot.
- The `printf` calls in `env_callback` (the pixel format it reads) and in `video_update` are console output. `VideoUpdate` returns the reported dimensions in place of printing them.
- `read_file` (src/main.c:143-159) is file I/O.
- `main` (src/main.c:161-191) is a fixed script of calls into the core, guarded by `assert`. What the core does inside `init`, `load_game` and `run` is foreign code.
- src/load.c is not part of this model. It only wraps `dlopen`, `dlsym`, `dlclose` and `LoadLibraryA`.
- `CoreLoader.Linker.LoadLibrary` is an abstraction of `dlopen`. Whether a path opens is given by the `libraries` map. Real dynamic linking, and calls through the stored function pointers, are not modelled. The map does not require that two paths with the same handle give the same library, although with `dlopen` one handle is one loaded object with one symbol table.
- `CoreLoader.Symbol` is the abstraction of `LOAD_SYMBOL` (src/main.c:20), that is of `dlsym`: it is the library's `lookup` function and promises nothing of its own. What binding does with its results is stated by `BindNullExactlyWhenMissing` and the lemmas after it.
- `CoreLoader.UnloadCore`: `free` is modelled as the ghost flag `released`. Dafny has no deallocation, so use after free is not modelled beyond that flag.
- `CoreLoader.LoadCore`: `malloc` is assumed to succeed. The source does not check its result.
- `Environment.ReplayLastWriteWins`: the directory commands and GET_LOG_INTERFACE all write the first word of the buffer they are given (src/main.c:111, 114, 123). A core that passed one buffer to both kinds of command would see the later write overwrite the earlier one. The model keeps the path variable and the `log` field apart, so it does not capture that aliasing; `ReplayWritesOnlyFixedValues` is stated for the same two separate variables.
- `Environment.EnvCallback`: a null payload passed to one of the four dereferencing commands is undefined behaviour in C. The model excludes it by precondition rather than modelling the crash. The payload of every command is modelled as one object with a string-out slot and a `log` slot. The type punning of the `void *` pointer, and what the core does with the written pointers, are not modelled.
- Hardware-render negotiation, a stored pixel format, the input and audio callbacks, the lifecycle state machine and a fail-closed bind are not in the code. They are not modelled.
