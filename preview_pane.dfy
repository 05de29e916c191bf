/**
 * The WASM panel of the preview pane: a registry of dropped files, a loader
 * that reads a module, instantiates it and runs its entry point, and a
 * terminal that receives every log line.
 *
 * The terminal is a sequence of raw write chunks (escape sequences included);
 * `reset()` empties it. Reading a file's bytes, `WebAssembly.instantiate` and
 * the call into the module's entry point are foreign code: their results are
 * the outcome values below, passed in by the caller.
 */
module PreviewPane {
  import opened Wrappers
  import opened Text

  // ---------------------------------------------------------------------------
  // Terminal text
  // ---------------------------------------------------------------------------

  /** What every log line starts with: a line break and the opening of a colour escape. */
  const LINE_OPEN: string := "\r\n\U{1B}["

  /** What every log line ends with: the escape that resets all attributes. */
  const SGR_RESET: string := "\U{1B}[0m"

  /** The banner the terminal shows when it is created and again after a stop. */
  const BOOT_MESSAGE: string :=
    "\n"
    + "\U{1B}[33m    ____        __        __        _ \n"
    + "   / __ \\____ _/ /_____ _/ /___  __(_)\n"
    + "  / /_/ / __ `/ __/ __ `/ __/ / / / / \n"
    + " / _, _/ /_/ / /_/ /_/ / /_/ /_/ / /  \n"
    + "/_/ |_|\\__,_/\\__/\\__,_/\\__/\\__,_/_/   \U{1B}[0m\n"
    + "\n"
    + "\U{1B}[37mStatus: \U{1B}[32mReady\U{1B}[37m\n"
    + "Backend: \U{1B}[36mxterm.js (WebGL)\U{1B}[0m\n"
    + "----------------------------------------\n"
    + "\U{1B}[90m> Drop .wasm files to mount them\n"
    + "> Select a file below to execute\U{1B}[0m\n"

  const CLEAR_SCREEN: string := "\U{1B}[2J\U{1B}[H"
  const SHOW_CURSOR: string := "\U{1B}[?25h"
  const HIDE_CURSOR: string := "\U{1B}[?25l"
  const TERMINATED: string := "\n\U{1B}[31m[PROCESS] Terminated.\U{1B}[0m\r\n"

  /** The four chunks a stop writes, in order. */
  const STOP_WRITES: seq<string> := [SHOW_CURSOR, CLEAR_SCREEN, BOOT_MESSAGE, TERMINATED]

  /** The decorative panel drawn by the simulated run. */
  const SIMULATION_BOX: seq<string> := [
    "\U{1B}[38;5;220m┌──────────────────────────────────────────────────┐\r\n",
    "│                 NABI SIMULATION                  │\r\n",
    "├──────────────────────────────────────────────────┤\r\n",
    "│  Simulating output for debugging purposes...     │\r\n",
    "└──────────────────────────────────────────────────┘\r\n"
  ]

  /** Everything a simulated run leaves in the freshly reset terminal. */
  const SIMULATE_WRITES: seq<string> := [HIDE_CURSOR, CLEAR_SCREEN] + SIMULATION_BOX

  /** `logToTerm`: one coloured line; the colour is an SGR parameter, white ("37") by default. */
  function LogLine(msg: string, color: string := "37"): string
  {
    LINE_OPEN + color + "m" + msg + SGR_RESET
  }

  /** The first position of `c` in `s`, or `|s|` when there is none. */
  function IndexOf(s: string, c: char): (k: nat)
    ensures k <= |s| && (k < |s| ==> s[k] == c)
    ensures forall i :: 0 <= i < k ==> s[i] != c
  {
    if s == [] then 0 else if s[0] == c then 0 else 1 + IndexOf(s[1..], c)
  }

  /** Reads a log line back into its message and colour; the inverse of LogLine. */
  function ParseLogLine(line: string): Option<(string, string)>
  {
    if |line| < |LINE_OPEN| + |SGR_RESET|
      || line[..|LINE_OPEN|] != LINE_OPEN
      || line[|line| - |SGR_RESET|..] != SGR_RESET
    then None
    else
      var body := line[|LINE_OPEN|..|line| - |SGR_RESET|];
      var k := IndexOf(body, 'm');
      if k == |body| then None else Some((body[k + 1..], body[..k]))
  }

  /** A log line determines its message and its colour, for every colour that is
      an SGR parameter list (no letter `m` in it). */
  lemma LogLineRoundTrip(msg: string, color: string)
    requires 'm' !in color
    ensures ParseLogLine(LogLine(msg, color)) == Some((msg, color))
  {
    var line := LogLine(msg, color);
    assert line == LINE_OPEN + (color + "m" + msg) + SGR_RESET;
    var body := line[|LINE_OPEN|..|line| - |SGR_RESET|];
    assert body == color + "m" + msg;
    var k := IndexOf(body, 'm');
    assert body[|color|] == 'm';
    assert forall i :: 0 <= i < |color| ==> body[i] == color[i];
    assert k == |color|;
    assert body[..k] == color;
    assert body[k + 1..] == msg;
  }

  /** What the terminal shows: the chunks written since the last full-screen clear. */
  function Visible(writes: seq<string>): (r: seq<string>)
    ensures |r| <= |writes| && r == writes[|writes| - |r|..]
    ensures CLEAR_SCREEN !in r
    ensures |r| < |writes| ==> writes[|writes| - |r| - 1] == CLEAR_SCREEN
  {
    if writes == [] then []
    else if writes[|writes| - 1] == CLEAR_SCREEN then []
    else Visible(writes[..|writes| - 1]) + [writes[|writes| - 1]]
  }

  /** After a stop the screen shows the boot banner and the termination notice,
      whatever was written before. */
  lemma StopShowsBanner(before: seq<string>)
    ensures Visible(before + STOP_WRITES) == [BOOT_MESSAGE, TERMINATED]
  {
    var w := before + STOP_WRITES;
    var r := Visible(w);
    assert w[|w| - 1] == TERMINATED && w[|w| - 2] == BOOT_MESSAGE && w[|w| - 3] == CLEAR_SCREEN;
    assert |BOOT_MESSAGE| != |CLEAR_SCREEN| && |TERMINATED| != |CLEAR_SCREEN|;
    assert |r| == 2;
  }

  /** After a simulated run the screen shows exactly the decorative panel. */
  lemma SimulateShowsBox()
    ensures Visible(SIMULATE_WRITES) == SIMULATION_BOX
  {
    var w := SIMULATE_WRITES;
    var r := Visible(w);
    assert w[1] == CLEAR_SCREEN;
    assert forall i :: 2 <= i < |w| ==> w[i] != CLEAR_SCREEN;
    assert |r| == 5;
  }

  // ---------------------------------------------------------------------------
  // Mounted files
  // ---------------------------------------------------------------------------

  /** A mounted file's type. The declared type admits `Other`; nothing produces it. */
  datatype FileKind = Wasm | Binary | Other

  /** A file as the drop event supplies it. */
  datatype DroppedFile = DroppedFile(name: string, size: nat)

  datatype MountedFile = MountedFile(name: string, size: nat, kind: FileKind, file: DroppedFile)

  /** The suffix test on the file name: `.wasm` gives a module, anything else an opaque binary. */
  function Classify(name: string): (k: FileKind)
    ensures k != Other
    ensures k == Wasm <==> EndsWith(name, ".wasm")
  {
    if EndsWith(name, ".wasm") then Wasm else Binary
  }

  function Mount(f: DroppedFile): MountedFile
  {
    MountedFile(f.name, f.size, Classify(f.name), f)
  }

  /** The entries one drop adds, in drop order. */
  function MountAll(files: seq<DroppedFile>): (r: seq<MountedFile>)
    ensures |r| == |files|
    ensures forall i :: 0 <= i < |files| ==> r[i] == Mount(files[i])
  {
    seq(|files|, i requires 0 <= i < |files| => Mount(files[i]))
  }

  function Concat(batches: seq<seq<DroppedFile>>): seq<DroppedFile>
  {
    if batches == [] then [] else batches[0] + Concat(batches[1..])
  }

  /** The registry after a series of drops, one batch at a time. */
  function DropAll(registry: seq<MountedFile>, batches: seq<seq<DroppedFile>>): seq<MountedFile>
    decreases |batches|
  {
    if batches == [] then registry else DropAll(registry + MountAll(batches[0]), batches[1..])
  }

  /** Any series of drops leaves the earlier entries in place, followed by every
      dropped file, classified, in the order the files arrived. */
  lemma {:induction false} DropsAccumulate(registry: seq<MountedFile>, batches: seq<seq<DroppedFile>>)
    ensures DropAll(registry, batches) == registry + MountAll(Concat(batches))
    decreases |batches|
  {
    if batches != [] {
      DropsAccumulate(registry + MountAll(batches[0]), batches[1..]);
      assert MountAll(batches[0] + Concat(batches[1..])) == MountAll(batches[0]) + MountAll(Concat(batches[1..]));
    }
  }

  /** The header line of a non-empty drop. */
  function MountedHeader(n: nat): string
  {
    LogLine("[SYSTEM] Mounted " + NatToString(n) + " file(s).", "32")
  }

  function MountedFileLine(f: MountedFile): string
  {
    LogLine("  + " + f.name, "90")
  }

  function MountedFileLines(files: seq<MountedFile>): (r: seq<string>)
    ensures |r| == |files|
  {
    seq(|files|, i requires 0 <= i < |files| => MountedFileLine(files[i]))
  }

  /** What a drop writes: nothing for an empty drop; otherwise a header naming
      the count, then one line per file in drop order. */
  function DropLog(files: seq<DroppedFile>): (r: seq<string>)
    ensures files == [] ==> r == []
    ensures files != [] ==> |r| == |files| + 1 && r[0] == MountedHeader(|files|)
    ensures forall i :: 0 <= i < |files| && files != [] ==> r[i + 1] == LogLine("  + " + files[i].name, "90")
  {
    if files == [] then [] else [MountedHeader(|files|)] + MountedFileLines(MountAll(files))
  }

  /** How many entries carry the name `name`. */
  function CountNamed(files: seq<MountedFile>, name: string): nat
  {
    if files == [] then 0
    else (if files[0].name == name then 1 else 0) + CountNamed(files[1..], name)
  }

  /** `removeFile`: every entry with that name goes, the rest stay. */
  function RemoveByName(files: seq<MountedFile>, name: string): (r: seq<MountedFile>)
    ensures |r| == |files| - CountNamed(files, name)
    ensures forall f :: f in r <==> f in files && f.name != name
    ensures CountNamed(r, name) == 0
    ensures CountNamed(files, name) == 0 ==> r == files
  {
    if files == [] then []
    else
      var rest := RemoveByName(files[1..], name);
      if files[0].name == name then rest
      else
        assert ([files[0]] + rest)[1..] == rest;
        [files[0]] + rest
  }

  /** Removal works element by element, so the surviving entries keep their relative order. */
  lemma {:induction false} RemoveByNameAppend(a: seq<MountedFile>, b: seq<MountedFile>, name: string)
    ensures RemoveByName(a + b, name) == RemoveByName(a, name) + RemoveByName(b, name)
  {
    if a != [] {
      assert (a + b)[1..] == a[1..] + b;
      RemoveByNameAppend(a[1..], b, name);
    } else {
      assert a + b == b;
    }
  }

  // ---------------------------------------------------------------------------
  // Loading and running a module
  // ---------------------------------------------------------------------------

  /** The host imports a module can call: `env.abort`, `wasi_snapshot_preview1.fd_write`
      and `wasi_snapshot_preview1.proc_exit`. */
  datatype HostCall = Abort | FdWrite | ProcExit

  /** What `file.arrayBuffer()` does. */
  datatype ReadOutcome = BytesRead | ReadFailed(message: string)

  /** What `WebAssembly.instantiate` does: the host calls made while the module's
      start section runs, then the export names in enumeration order, or the
      failure's message. */
  datatype InstantiateOutcome =
    | Instantiated(startCalls: seq<HostCall>, exports: seq<string>)
    | InstantiateFailed(startCalls: seq<HostCall>, message: string)

  /** What calling the entry point does: the host calls it makes, then either a
      return or a trap with its message. */
  datatype Invocation = Invocation(hostCalls: seq<HostCall>, trap: Option<string>)

  /** The live instance; only its export names matter to the panel. */
  datatype Instance = Instance(exports: seq<string>)

  const ABORT_LINE: string := LogLine("Error: WASM aborted", "31")
  const EXIT_LINE: string := LogLine("[PROCESS] Exit called", "33")

  /** The lines the host imports write: abort and proc_exit log, fd_write is silent. */
  function HostCallLog(calls: seq<HostCall>): (r: seq<string>)
    ensures |r| <= |calls|
    ensures forall line :: line in r ==> line == ABORT_LINE || line == EXIT_LINE
    ensures (forall i :: 0 <= i < |calls| ==> calls[i] == FdWrite) ==> r == []
  {
    if calls == [] then []
    else
      var line := match calls[0]
        case Abort => [ABORT_LINE]
        case FdWrite => []
        case ProcExit => [EXIT_LINE];
      line + HostCallLog(calls[1..])
  }

  /** Each host call on its own: `abort` and `proc_exit` write their one line,
      `fd_write` writes nothing. */
  lemma HostCallLines()
    ensures HostCallLog([Abort]) == [ABORT_LINE]
    ensures HostCallLog([ProcExit]) == [EXIT_LINE]
    ensures HostCallLog([FdWrite]) == []
  {
    assert [Abort][1..] == [];
    assert [ProcExit][1..] == [];
    assert [FdWrite][1..] == [];
  }

  /** The host calls write their lines in the order the module makes the calls. */
  lemma {:induction false} HostCallLogAppend(a: seq<HostCall>, b: seq<HostCall>)
    ensures HostCallLog(a + b) == HostCallLog(a) + HostCallLog(b)
  {
    if a == [] {
      assert a + b == b;
    } else {
      assert (a + b)[0] == a[0];
      assert (a + b)[1..] == a[1..] + b;
      HostCallLogAppend(a[1..], b);
    }
  }

  /** The entry-point policy: `main` first, then `_start`, else none. */
  function ResolveEntry(exports: seq<string>): (r: Option<string>)
    ensures r == Some("main") <==> "main" in exports
    ensures r == Some("_start") <==> "main" !in exports && "_start" in exports
    ensures r == None <==> "main" !in exports && "_start" !in exports
  {
    if "main" in exports then Some("main")
    else if "_start" in exports then Some("_start")
    else None
  }

  function RunningLine(entry: string): string
  {
    if entry == "main" then LogLine("[EXEC] Running main()...", "32")
    else LogLine("[EXEC] Running _start() (WASI)...", "32")
  }

  const NO_ENTRY_LINE: string := LogLine("[WARN] No entry point (main/_start) found.", "33")
  const EXPORTS_PREFIX: string := "Available exports: "

  function ExportsLine(exports: seq<string>): string
  {
    LogLine(EXPORTS_PREFIX + Join(exports, ", "), "90")
  }

  /** Both failures the inner handler catches print these two lines. */
  function FailureLog(message: string): seq<string>
  {
    [LogLine("[ERROR] Instantiation Failed:", "31"), LogLine(message, "31")]
  }

  function EntryLog(exports: seq<string>, entry: Invocation): seq<string>
  {
    match ResolveEntry(exports)
    case Some(e) =>
      [RunningLine(e)] + HostCallLog(entry.hostCalls)
      + (match entry.trap case None => [] case Some(m) => FailureLog(m))
    case None => [NO_ENTRY_LINE, ExportsLine(exports)]
  }

  const LOADED_LINE: string := LogLine("[SUCCESS] WASM Loaded Successfully!", "32")
  const DIVIDER_LINE: string := LogLine("----------------------------------------", "90")

  function InstantiateLog(inst: InstantiateOutcome, entry: Invocation): seq<string>
  {
    match inst
    case InstantiateFailed(calls, m) => HostCallLog(calls) + FailureLog(m)
    case Instantiated(calls, exports) =>
      HostCallLog(calls) + [LOADED_LINE, DIVIDER_LINE] + EntryLog(exports, entry)
  }

  function ReadingLine(name: string): string
  {
    LogLine("[LOADER] Reading " + name + "...", "36")
  }

  const INSTANTIATING_LINE: string := LogLine("[LOADER] Instantiating WebAssembly module...", "36")

  /** The whole terminal after a run: the terminal is reset first, so nothing
      written before survives. */
  function ExecuteLog(name: string, read: ReadOutcome, inst: InstantiateOutcome, entry: Invocation): seq<string>
  {
    [ReadingLine(name)]
    + match read
      case ReadFailed(m) => [LogLine("[ERROR] Failed to load file: " + m, "31")]
      case BytesRead => [INSTANTIATING_LINE] + InstantiateLog(inst, entry)
  }

  /** The loaded flag and the instance are set exactly when the bytes were read
      and instantiation succeeded; what the entry point then does is irrelevant. */
  predicate Loads(read: ReadOutcome, inst: InstantiateOutcome)
  {
    read.BytesRead? && inst.Instantiated?
  }

  /** With a `main` export, `main` runs, whether or not `_start` is exported too. */
  lemma MainPreferred(exports: seq<string>, entry: Invocation)
    requires "main" in exports
    ensures EntryLog(exports, entry)[0] == LogLine("[EXEC] Running main()...", "32")
  {
  }

  /** Without `main`, `_start` runs when it is exported. */
  lemma StartFallback(exports: seq<string>, entry: Invocation)
    requires "main" !in exports && "_start" in exports
    ensures EntryLog(exports, entry)[0] == LogLine("[EXEC] Running _start() (WASI)...", "32")
  {
  }

  /** With neither, nothing runs: a warning, then the exports line, also when
      the module exports nothing at all. */
  lemma NoEntryWarns(exports: seq<string>, entry: Invocation)
    requires "main" !in exports && "_start" !in exports
    ensures EntryLog(exports, entry) == [NO_ENTRY_LINE, ExportsLine(exports)]
    ensures exports == [] ==> ExportsLine(exports) == LogLine(EXPORTS_PREFIX, "90")
  {
  }

  /** The exports line names every export, in enumeration order, separated by ", ":
      the `i`-th name stands at its offset after the prefix. */
  lemma NoEntryListsExports(exports: seq<string>, i: nat)
    requires i < |exports|
    ensures var k := |LINE_OPEN| + |"90m"| + |EXPORTS_PREFIX| + JoinOffset(exports, ", ", i);
      && k + |exports[i]| <= |ExportsLine(exports)|
      && ExportsLine(exports)[k..k + |exports[i]|] == exports[i]
  {
    var joined := Join(exports, ", ");
    var j := JoinOffset(exports, ", ", i);
    JoinAt(exports, ", ", i);
    SliceAfter(EXPORTS_PREFIX, joined, j, |exports[i]|);
    LogLineAt(EXPORTS_PREFIX + joined, "90", |EXPORTS_PREFIX| + j, |exports[i]|);
  }

  /** A slice of a message stands, unchanged, after the colour prefix of its log line. */
  lemma LogLineAt(msg: string, color: string, k: nat, len: nat)
    requires k + len <= |msg|
    ensures |LINE_OPEN| + |color| + 1 + k + len <= |LogLine(msg, color)|
    ensures LogLine(msg, color)[|LINE_OPEN| + |color| + 1 + k..|LINE_OPEN| + |color| + 1 + k + len] == msg[k..k + len]
  {
    var head := LINE_OPEN + color + "m";
    var tail := msg + SGR_RESET;
    assert LogLine(msg, color) == head + tail;
    assert tail[k..k + len] == msg[k..k + len];
    SliceAfter(head, tail, k, len);
  }

  /** A read failure writes the reading notice and one error line, and loads nothing. */
  lemma ReadFailureReported(name: string, message: string, inst: InstantiateOutcome, entry: Invocation)
    ensures ExecuteLog(name, ReadFailed(message), inst, entry)
      == [ReadingLine(name), LogLine("[ERROR] Failed to load file: " + message, "31")]
    ensures !Loads(ReadFailed(message), inst)
  {
  }

  /** An instantiation failure ends the log with the failure report and loads nothing. */
  lemma InstantiationFailureReported(name: string, calls: seq<HostCall>, message: string, entry: Invocation)
    ensures var log := ExecuteLog(name, BytesRead, InstantiateFailed(calls, message), entry);
      |log| >= 2 && log[|log| - 2..] == FailureLog(message)
    ensures !Loads(BytesRead, InstantiateFailed(calls, message))
  {
  }

  /** A trap in the entry point gets the same report as an instantiation failure,
      but the module counts as loaded. */
  lemma EntryTrapReportedAsInstantiationFailure(
    name: string, calls: seq<HostCall>, exports: seq<string>, hostCalls: seq<HostCall>, message: string)
    requires ResolveEntry(exports).Some?
    ensures var log := ExecuteLog(name, BytesRead, Instantiated(calls, exports), Invocation(hostCalls, Some(message)));
      |log| >= 2 && log[|log| - 2..] == FailureLog(message)
    ensures Loads(BytesRead, Instantiated(calls, exports))
  {
  }

  // ---------------------------------------------------------------------------
  // The panel
  // ---------------------------------------------------------------------------

  class Panel {
    /** The mounted-file list, in mount order. */
    var mounted: seq<MountedFile>
    /** The Running/Idle flag. */
    var loaded: bool
    /** The live module instance, if any. */
    var instance: Option<Instance>
    /** Whether the terminal exists (its reference is set by the mount effect). */
    var attached: bool
    /** Every chunk written to the terminal since it was created or last reset. */
    var terminal: seq<string>

    ghost predicate Valid()
      reads this
    {
      && (instance.Some? ==> loaded)
      && (!attached ==> terminal == [])
      && forall j :: 0 <= j < |mounted| ==> mounted[j] == Mount(mounted[j].file)
    }

    /** The RUN button of an entry: shown for modules only, and only while nothing is loaded. */
    predicate RunOffered(f: MountedFile)
      reads this
    {
      f.kind == Wasm && !loaded
    }

    constructor ()
      ensures Valid()
      ensures mounted == [] && !loaded && instance == None && !attached && terminal == []
    {
      mounted := [];
      loaded := false;
      instance := None;
      attached := false;
      terminal := [];
    }

    /** The mount effect: create the terminal and write the boot banner. */
    method Attach()
      requires Valid()
      modifies this
      ensures Valid()
      ensures attached && terminal == [BOOT_MESSAGE]
      ensures mounted == old(mounted) && loaded == old(loaded) && instance == old(instance)
    {
      attached := true;
      terminal := [BOOT_MESSAGE];
    }

    /** `logToTerm`: writes only when the terminal exists. */
    method Log(msg: string, color: string := "37")
      modifies this`terminal
      ensures terminal == old(terminal) + (if attached then [LogLine(msg, color)] else [])
    {
      if attached {
        terminal := terminal + [LogLine(msg, color)];
      }
    }

    /** `handleDrop`: append the classified batch, then log it. */
    method Drop(files: seq<DroppedFile>)
      requires Valid()
      modifies this
      ensures Valid()
      ensures mounted == old(mounted) + MountAll(files)
      ensures terminal == old(terminal) + (if attached then DropLog(files) else [])
      ensures loaded == old(loaded) && instance == old(instance) && attached == old(attached)
    {
      var added := MountAll(files);
      mounted := mounted + added;
      if |added| > 0 {
        Log("[SYSTEM] Mounted " + NatToString(|added|) + " file(s).", "32");
        var i := 0;
        while i < |added|
          modifies this`terminal
          invariant 0 <= i <= |added|
          invariant terminal == old(terminal)
            + (if attached then [MountedHeader(|added|)] + MountedFileLines(added[..i]) else [])
        {
          assert MountedFileLines(added[..i + 1]) == MountedFileLines(added[..i]) + [MountedFileLine(added[i])];
          Log("  + " + added[i].name, "90");
          i := i + 1;
        }
        assert added[..|added|] == added;
      }
    }

    /** `removeFile`. */
    method Remove(name: string)
      requires Valid()
      modifies this`mounted
      ensures Valid()
      ensures mounted == RemoveByName(old(mounted), name)
    {
      mounted := RemoveByName(mounted, name);
    }

    /** `executeWasm`: reset the terminal, read, instantiate, mark loaded, run the
        entry point; every failure is logged, none escapes. */
    method Execute(file: DroppedFile, read: ReadOutcome, inst: InstantiateOutcome, entry: Invocation)
      requires Valid()
      modifies this
      ensures Valid()
      ensures mounted == old(mounted) && attached == old(attached)
      ensures !attached ==> unchanged(this)
      ensures attached ==> terminal == ExecuteLog(file.name, read, inst, entry)
      ensures attached ==> loaded == (old(loaded) || Loads(read, inst))
      ensures attached ==> instance == if Loads(read, inst) then Some(Instance(inst.exports)) else old(instance)
    {
      if !attached {
        return;
      }
      Load(file, read, inst, entry);
    }

    /** The body of `executeWasm` once the terminal exists. */
    method Load(file: DroppedFile, read: ReadOutcome, inst: InstantiateOutcome, entry: Invocation)
      requires Valid() && attached
      modifies this
      ensures Valid()
      ensures mounted == old(mounted) && attached == old(attached)
      ensures terminal == ExecuteLog(file.name, read, inst, entry)
      ensures loaded == (old(loaded) || Loads(read, inst))
      ensures instance == if Loads(read, inst) then Some(Instance(inst.exports)) else old(instance)
    {
      terminal := [];
      Log("[LOADER] Reading " + file.name + "...", "36");
      match read {
        case ReadFailed(m) =>
          Log("[ERROR] Failed to load file: " + m, "31");
        case BytesRead =>
          Log("[LOADER] Instantiating WebAssembly module...", "36");
          assert ExecuteLog(file.name, read, inst, entry) == terminal + InstantiateLog(inst, entry);
          Instantiate(inst, entry);
      }
    }

    /** The inner handler of `executeWasm`: instantiate, mark loaded, run the entry point. */
    method Instantiate(inst: InstantiateOutcome, entry: Invocation)
      requires Valid() && attached
      modifies this
      ensures Valid()
      ensures mounted == old(mounted) && attached == old(attached)
      ensures terminal == old(terminal) + InstantiateLog(inst, entry)
      ensures loaded == (old(loaded) || inst.Instantiated?)
      ensures instance == if inst.Instantiated? then Some(Instance(inst.exports)) else old(instance)
    {
      ghost var before := terminal;
      match inst {
        case InstantiateFailed(calls, m) =>
          terminal := terminal + HostCallLog(calls);
          Log("[ERROR] Instantiation Failed:", "31");
          Log(m, "31");
        case Instantiated(calls, exports) =>
          terminal := terminal + HostCallLog(calls);
          instance := Some(Instance(exports));
          loaded := true;
          Log("[SUCCESS] WASM Loaded Successfully!", "32");
          Log("----------------------------------------", "90");
          assert terminal == before + (HostCallLog(calls) + [LOADED_LINE, DIVIDER_LINE]);
          RunEntryPoint(exports, entry);
      }
    }

    /** Pick the entry point and call it, or list the exports when there is none.
        A trap is caught by the same handler as an instantiation failure. */
    method RunEntryPoint(exports: seq<string>, entry: Invocation)
      requires attached
      modifies this`terminal
      ensures terminal == old(terminal) + EntryLog(exports, entry)
    {
      match ResolveEntry(exports) {
        case Some(e) =>
          if e == "main" {
            Log("[EXEC] Running main()...", "32");
          } else {
            Log("[EXEC] Running _start() (WASI)...", "32");
          }
          terminal := terminal + HostCallLog(entry.hostCalls);
          if entry.trap.Some? {
            Log("[ERROR] Instantiation Failed:", "31");
            Log(entry.trap.value, "31");
          }
        case None =>
          Log("[WARN] No entry point (main/_start) found.", "33");
          Log("Available exports: " + Join(exports, ", "), "90");
      }
    }

    /** The RUN button of entry `i`: runs the entry's file when the button is shown. */
    method ClickRun(i: nat, read: ReadOutcome, inst: InstantiateOutcome, entry: Invocation)
      requires Valid() && i < |mounted|
      modifies this
      ensures Valid()
      ensures !attached ==> unchanged(this)
      ensures !old(RunOffered(mounted[i])) ==> unchanged(this)
      ensures old(RunOffered(mounted[i])) ==> mounted == old(mounted) && attached == old(attached)
      ensures old(RunOffered(mounted[i])) && attached ==>
        && terminal == ExecuteLog(old(mounted[i].name), read, inst, entry)
        && loaded == Loads(read, inst)
        && instance == if Loads(read, inst) then Some(Instance(inst.exports)) else old(instance)
    {
      if RunOffered(mounted[i]) {
        Execute(mounted[i].file, read, inst, entry);
      }
    }

    /** `handleSimulateRun`: mark loaded without an instance and draw the panel. */
    method SimulateRun()
      requires Valid()
      modifies this
      ensures Valid()
      ensures !attached ==> unchanged(this)
      ensures attached ==> loaded && terminal == SIMULATE_WRITES
      ensures mounted == old(mounted) && instance == old(instance) && attached == old(attached)
    {
      if !attached {
        return;
      }
      loaded := true;
      terminal := [];
      terminal := terminal + [HIDE_CURSOR];
      terminal := terminal + [CLEAR_SCREEN] + SIMULATION_BOX;
    }

    /** `handleStop`: drop the instance, clear the flag, redraw the banner and
        the termination notice. The terminal is not reset, only cleared on screen. */
    method Stop()
      requires Valid()
      modifies this
      ensures Valid()
      ensures !attached ==> unchanged(this)
      ensures attached ==> !loaded && instance == None && terminal == old(terminal) + STOP_WRITES
      ensures mounted == old(mounted) && attached == old(attached)
    {
      if !attached {
        return;
      }
      loaded := false;
      instance := None;
      terminal := terminal + [SHOW_CURSOR];
      terminal := terminal + [CLEAR_SCREEN];
      terminal := terminal + [BOOT_MESSAGE];
      terminal := terminal + [TERMINATED];
    }

    /** The control bar's one button: STOP while loaded, TEST otherwise. */
    method ClickControl()
      requires Valid()
      modifies this
      ensures Valid()
      ensures !attached ==> unchanged(this)
      ensures mounted == old(mounted) && attached == old(attached)
      ensures attached ==> loaded == !old(loaded)
      ensures attached && old(loaded) ==> instance == None && terminal == old(terminal) + STOP_WRITES
      ensures attached && !old(loaded) ==> instance == old(instance) && terminal == SIMULATE_WRITES
    {
      if loaded {
        Stop();
      } else {
        SimulateRun();
      }
    }
  }
}
