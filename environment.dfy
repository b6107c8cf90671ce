/**
 * The frontend's environment callback: the core calls it with a command code
 * and a pointer to a payload the core owns. The host keeps no state of its own;
 * the answer is a function of the command alone, and three commands write a
 * value through the payload pointer.
 */
module Environment {
  import opened Wrappers

  /** The environment commands the callback names, plus every other code. */
  datatype Command =
    | SetPixelFormat
    | GetVariable
    | GetSystemDirectory
    | GetSaveDirectory
    | SetMinimumAudioLatency
    | GetVariableUpdate
    | SetMemoryMaps
    | GetLogInterface
    // Any code the switch does not list, including codes of future cores. The
    // numeric values are not modelled, so `code` is assumed to differ from the
    // codes of the eight named cases; nothing in the datatype enforces that.
    | Other(code: nat)

  /** The path handed out for the system directory. */
  const SystemDirectory: string := "/home/alex/.config/Slippi Launcher/playback/Sys/"

  /** The path handed out for the save directory. */
  const SaveDirectory: string := "/home/alex/melee/tutor/emu_embed/data"

  /** The commands the host reports as handled. */
  const HandledCommands: set<Command> :=
    {SetPixelFormat, GetSystemDirectory, GetSaveDirectory, SetMinimumAudioLatency, SetMemoryMaps, GetLogInterface}

  /** The commands whose arm dereferences the payload pointer; every other arm accepts null. */
  const DereferencingCommands: set<Command> :=
    {SetPixelFormat, GetSystemDirectory, GetSaveDirectory, GetLogInterface}

  /** A function pointer stored in the `log` slot of a `retro_log_callback`. */
  datatype LogSink =
    | LoggingCallback            // the host's own `logging_callback`
    | CoreSupplied(address: nat) // whatever the core left there before the call

  /** What one call writes through the payload pointer. */
  datatype Write =
    | NoWrite
    | WritePath(path: string)  // `*(const char **)data = path`
    | WriteLog(sink: LogSink)  // `((struct retro_log_callback *)data)->log = sink`

  /**
   * What the callback can write: the core's `const char *` variable, which the
   * directory commands fill, and the `log` field of the core's
   * `retro_log_callback` variable, which GET_LOG_INTERFACE fills. The two are
   * separate buffers of the core.
   */
  datatype Slots = Slots(path: Option<string>, log: Option<LogSink>)

  /** The value the callback returns for `cmd`. */
  function Handled(cmd: Command): (r: bool)
    ensures r <==> cmd in HandledCommands
  {
    match cmd
    case SetPixelFormat => true
    case GetVariable => false
    case GetSystemDirectory => true
    case GetSaveDirectory => true
    case SetMinimumAudioLatency => true
    case GetVariableUpdate => false
    case SetMemoryMaps => true
    case GetLogInterface => true
    case Other(_) => false
  }

  /** What the callback writes into the payload for `cmd`. */
  function Effect(cmd: Command): (w: Write)
    ensures w.WritePath? <==> cmd == GetSystemDirectory || cmd == GetSaveDirectory
    ensures w.WriteLog? <==> cmd == GetLogInterface
    ensures w.WritePath? ==> w.path in {SystemDirectory, SaveDirectory}
    ensures w.WriteLog? ==> w.sink == LoggingCallback
    ensures w != NoWrite ==> Handled(cmd)
  {
    match cmd
    case GetSystemDirectory => WritePath(SystemDirectory)
    case GetSaveDirectory => WritePath(SaveDirectory)
    case GetLogInterface => WriteLog(LoggingCallback)
    case _ => NoWrite
  }

  /** The payload after a write. */
  function Apply(v: Slots, w: Write): (r: Slots)
  {
    match w
    case NoWrite => v
    case WritePath(p) => v.(path := Some(p))
    case WriteLog(s) => v.(log := Some(s))
  }

  /** The core's variables the payload pointer refers to, as far as the callback touches them. */
  class Payload {
    var path: Option<string>
    var log: Option<LogSink>

    constructor (path: Option<string>, log: Option<LogSink>)
      ensures this.path == path && this.log == log
    {
      this.path := path;
      this.log := log;
    }

    function View(): Slots
      reads this
    {
      Slots(path, log)
    }
  }

  /**
   * `env_callback`: answer `cmd`, writing through `data` where the command asks
   * for a value. `data` may be null for a command whose arm never touches it.
   */
  method EnvCallback(cmd: Command, data: Payload?) returns (handled: bool)
    requires data != null || cmd !in DereferencingCommands
    modifies data
    ensures handled == Handled(cmd)
    ensures data != null ==> data.View() == Apply(old(data.View()), Effect(cmd))
    ensures data != null && Effect(cmd) == NoWrite ==> unchanged(data)
  {
    match cmd {
      case SetPixelFormat =>
        handled := true;
      case GetVariable =>
        handled := false;
      case GetSystemDirectory =>
        data.path := Some(SystemDirectory);
        handled := true;
      case GetSaveDirectory =>
        data.path := Some(SaveDirectory);
        handled := true;
      case SetMinimumAudioLatency =>
        handled := true;
      case GetVariableUpdate =>
        handled := false;
      case SetMemoryMaps =>
        handled := true;
      case GetLogInterface =>
        data.log := Some(LoggingCallback);
        handled := true;
      case Other(_) =>
        handled := false;
    }
  }

  /** The variable queries and every unlisted code are refused and write nothing. */
  lemma RefusedCommandsWriteNothing(cmd: Command, v: Slots)
    requires cmd == GetVariable || cmd == GetVariableUpdate || cmd.Other?
    ensures !Handled(cmd)
    ensures Apply(v, Effect(cmd)) == v
  {
  }

  /** SET_PIXEL_FORMAT, SET_MINIMUM_AUDIO_LATENCY and SET_MEMORY_MAPS are accepted and write nothing. */
  lemma SetCommandsWriteNothing(cmd: Command, v: Slots)
    requires cmd == SetPixelFormat || cmd == SetMinimumAudioLatency || cmd == SetMemoryMaps
    ensures Handled(cmd)
    ensures Apply(v, Effect(cmd)) == v
  {
  }

  /** The two directory commands hand out different paths, and each touches only the string slot. */
  lemma DirectoryCommands(v: Slots)
    ensures Apply(v, Effect(GetSystemDirectory)) == Slots(Some(SystemDirectory), v.log)
    ensures Apply(v, Effect(GetSaveDirectory)) == Slots(Some(SaveDirectory), v.log)
    ensures SystemDirectory != SaveDirectory
  {
  }

  /** GET_LOG_INTERFACE sets only the `log` slot, to the host's logging callback. */
  lemma LogInterfaceCommand(v: Slots)
    ensures Handled(GetLogInterface)
    ensures Apply(v, Effect(GetLogInterface)) == Slots(v.path, Some(LoggingCallback))
  {
  }

  // ----- The core may call the callback any number of times, in any order -----

  /** The core's two variables after the callback has answered `cmds` in order, each command given the variable of its type. */
  function Replay(v: Slots, cmds: seq<Command>): (r: Slots)
    decreases |cmds|
  {
    if cmds == [] then v else Replay(Apply(v, Effect(cmds[0])), cmds[1..])
  }

  /** The last path any command of `cmds` writes, `None` when none writes one. */
  function LastPath(cmds: seq<Command>): (p: Option<string>)
    decreases |cmds|
  {
    if cmds == [] then None
    else match Effect(cmds[|cmds| - 1])
      case WritePath(p) => Some(p)
      case _ => LastPath(cmds[..|cmds| - 1])
  }

  /** The last log sink any command of `cmds` writes, `None` when none writes one. */
  function LastLog(cmds: seq<Command>): (s: Option<LogSink>)
    decreases |cmds|
  {
    if cmds == [] then None
    else match Effect(cmds[|cmds| - 1])
      case WriteLog(s) => Some(s)
      case _ => LastLog(cmds[..|cmds| - 1])
  }

  /** Each slot holds the last value written to it, or its value before the calls. */
  function LastWrites(v: Slots, cmds: seq<Command>): (r: Slots)
  {
    Slots(if LastPath(cmds).Some? then LastPath(cmds) else v.path,
          if LastLog(cmds).Some? then LastLog(cmds) else v.log)
  }

  /** Answering `a` and then `b` is answering `a + b`. */
  lemma {:induction false} ReplayAppend(v: Slots, a: seq<Command>, b: seq<Command>)
    ensures Replay(v, a + b) == Replay(Replay(v, a), b)
    decreases |a|
  {
    if a == [] {
      assert a + b == b;
    } else {
      assert (a + b)[1..] == a[1..] + b;
      ReplayAppend(Apply(v, Effect(a[0])), a[1..], b);
    }
  }

  /** The callback keeps no state: a run of calls leaves in each variable the last value written to it. */
  lemma {:induction false} ReplayLastWriteWins(v: Slots, cmds: seq<Command>)
    ensures Replay(v, cmds) == LastWrites(v, cmds)
    decreases |cmds|
  {
    if cmds != [] {
      var n := |cmds| - 1;
      assert cmds == cmds[..n] + [cmds[n]];
      ReplayAppend(v, cmds[..n], [cmds[n]]);
      ReplayLastWriteWins(v, cmds[..n]);
    }
  }

  /** Repeating a run of calls gives the same payload as running it once. */
  lemma ReplayTwice(v: Slots, cmds: seq<Command>)
    ensures Replay(v, cmds + cmds) == Replay(v, cmds)
  {
    ReplayAppend(v, cmds, cmds);
    ReplayLastWriteWins(v, cmds);
    ReplayLastWriteWins(Replay(v, cmds), cmds);
  }

  /** The only paths ever written are the two fixed directories. */
  lemma {:induction false} LastPathIsFixed(cmds: seq<Command>)
    ensures LastPath(cmds) in {None, Some(SystemDirectory), Some(SaveDirectory)}
    decreases |cmds|
  {
    if cmds != [] {
      LastPathIsFixed(cmds[..|cmds| - 1]);
    }
  }

  /** The only log sink ever written is the host's own. */
  lemma {:induction false} LastLogIsHost(cmds: seq<Command>)
    ensures LastLog(cmds) in {None, Some(LoggingCallback)}
    decreases |cmds|
  {
    if cmds != [] {
      LastLogIsHost(cmds[..|cmds| - 1]);
    }
  }

  /** Whatever the core asks, the only strings handed out are the two directories and the only sink is the host's. */
  lemma ReplayWritesOnlyFixedValues(v: Slots, cmds: seq<Command>)
    ensures Replay(v, cmds).path in {v.path, Some(SystemDirectory), Some(SaveDirectory)}
    ensures Replay(v, cmds).log in {v.log, Some(LoggingCallback)}
  {
    ReplayLastWriteWins(v, cmds);
    LastPathIsFixed(cmds);
    LastLogIsHost(cmds);
  }

  /** Calls whose commands write nothing (the SET_* commands, the variable queries, unknown codes) leave the payload as it was. */
  lemma {:induction false} ReplayWithoutWrites(v: Slots, cmds: seq<Command>)
    requires forall i :: 0 <= i < |cmds| ==> Effect(cmds[i]) == NoWrite
    ensures Replay(v, cmds) == v
    decreases |cmds|
  {
    if cmds != [] {
      ReplayWithoutWrites(Apply(v, Effect(cmds[0])), cmds[1..]);
    }
  }
}
