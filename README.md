# Ratatui Architect: the WASM panel and the chat controller, in Dafny

This project models the two stateful controllers of a browser front-end. The front-end is a chat
client about the Ratatui terminal-UI toolkit, and it has a terminal panel that runs WebAssembly
modules.

- **The WASM panel** (`components/PreviewPane.tsx`) is modelled as class `PreviewPane.Panel`.
  It holds the mounted-file list, the Running/Idle flag, the live module instance and the
  terminal.
  - The terminal is the sequence of raw chunks written to it since it was created or last
    reset. Colour and cursor escape sequences are kept as they are.
  - Dropping files classifies each one by its `.wasm` suffix and appends the batch. It then logs
    the batch in a loop.
  - Removing a name drops every entry with that name.
  - A run resets the terminal. It then reads the file, instantiates the module, sets the flag
    and calls `main`, else `_start`, else lists the exports.
  - Stop clears the flag and the instance and redraws the boot banner. The simulated run sets
    the flag and draws a fixed panel.
  - Three foreign operations become outcome values passed in by the caller: reading the file's
    bytes (`ReadOutcome`), `WebAssembly.instantiate` (`InstantiateOutcome`) and the call into the
    entry point (`Invocation`). Host-import calls made by the module (`abort`, `fd_write`,
    `proc_exit`) are listed inside those outcomes, because they write log lines.
- **The chat controller** (`App.tsx`) is modelled as class `App.ChatController`. It holds the
  transcript, the input box, the loading flag and the selected topic.
  - A send is split at its `await`. `BeginSend` runs the guard, appends the user message,
    clears the input and sets LOADING. `FinishSend` appends the reply or the fixed error
    message and returns to IDLE.
  - The remote chat call is a `ReplyOutcome` parameter.
  - `AfterSend`, `Replay` and the lemmas beside them state what whole sends do to the transcript.
- **Helpers** (module `Text`) cover the JavaScript string operations these handlers use:
  `trim` with ECMAScript's white-space set, `endsWith`, `join`, and the decimal rendering of a
  count.

On these points the code's behaviour is easy to misread; the model follows the code:

- `removeFile` removes every entry with the given name, not only the first.
- There is no Loading state, only a boolean. The RUN button stays available until
  instantiation succeeds.
- A trap in the entry point is caught by the handler for instantiation errors. It is reported
  as "[ERROR] Instantiation Failed:" and the flag stays set.
- Stop has no guard of its own. The UI offers it only while the flag is set.
- Stop does not reset the terminal. It writes a clear-screen sequence, so the earlier chunks
  are still in the buffer. `Visible` gives what is on screen after the last clear.
- The available-exports line lists the exports in the order the host enumerates them. It does
  not sort them.
- A run does not check the file's kind. Only the RUN button's guard does that.

## Model

| member | source | states |
|---|---|---|
| `PreviewPane.LogLine` | components/PreviewPane.tsx:87-89 | Defines `logToTerm`'s chunk: CRLF, ESC `[`, the colour, `m`, the message, then ESC `[0m`. The colour is "37" by default. Its inverse is `ParseLogLine`, and `LogLineRoundTrip` proves the round trip. |
| `PreviewPane.LogLineRoundTrip` | components/PreviewPane.tsx:87-89 | A log line is CRLF, an SGR colour escape, the message and an SGR reset. The colour defaults to "37". Message and colour can be read back from the line whenever the colour has no `m` in it. |
| `Text.EndsWith` | components/PreviewPane.tsx:164 | Defines `endsWith`: the text is at least as long as the suffix and ends with it. `Classify` is stated in terms of it. |
| `PreviewPane.Classify` | components/PreviewPane.tsx:164 | A name gives a module exactly when it ends in `.wasm`, and an opaque binary otherwise. The declared third type `other` is never produced. |
| `PreviewPane.Mount` | components/PreviewPane.tsx:161-166 | Defines the registry entry for one dropped file: its name, its size, the kind `Classify` gives its name, and the file itself. `MountAll` and `Panel.Valid` state that every entry has this form. |
| `PreviewPane.MountAll` | components/PreviewPane.tsx:160-166 | One entry per dropped file, in drop order, each carrying its file's name, size and suffix classification. |
| `PreviewPane.DropsAccumulate` | components/PreviewPane.tsx:168 | Any series of drops leaves the earlier entries in place. They are followed by all dropped files, classified, in arrival order. |
| `PreviewPane.DropLog` | components/PreviewPane.tsx:170-173 | An empty drop writes nothing. A non-empty drop writes a "[SYSTEM] Mounted N file(s)." header, then one "  + name" line per file, in order. |
| `Text.NatToString` | components/PreviewPane.tsx:171 | The count in the header is a decimal numeral: at least one digit, only digits, no leading zero. |
| `Text.ParseNatToString` | components/PreviewPane.tsx:171 | Reading the numeral back gives the count. |
| `PreviewPane.RemoveByName` | components/PreviewPane.tsx:206 | Removal drops every entry with that name, and no entry with that name remains. Every other entry stays, and the length shrinks by the number of matches. With no match it changes nothing. |
| `PreviewPane.RemoveByNameAppend` | components/PreviewPane.tsx:206 | Removal acts entry by entry, so the entries that stay keep their relative order. |
| `PreviewPane.ResolveEntry` | components/PreviewPane.tsx:123-132 | The entry point is `main` exactly when `main` is exported. It is `_start` exactly when `_start` is exported and `main` is not. There is none exactly when neither is exported. |
| `PreviewPane.MainPreferred` | components/PreviewPane.tsx:123-125 | With a `main` export, `main` is announced and run, even when `_start` is also exported. |
| `PreviewPane.StartFallback` | components/PreviewPane.tsx:126-128 | Without `main`, an exported `_start` is announced and run. |
| `PreviewPane.NoEntryWarns` | components/PreviewPane.tsx:129-132 | With neither entry point, nothing runs. A warning is written, then the "Available exports:" line, including for a module with no exports at all. |
| `PreviewPane.NoEntryListsExports` | components/PreviewPane.tsx:131 | Every export name appears in the "Available exports:" line, unchanged and in order, at its offset after the prefix. |
| `Text.Join` | components/PreviewPane.tsx:131 | Defines `join`: the parts in order with the separator between neighbours, "" for no parts, and a single part unchanged. `JoinAt` and `JoinOffset` locate each part in the result. |
| `Text.JoinAt` | components/PreviewPane.tsx:131 | Every joined name appears unchanged at its computed offset in the joined string. |
| `PreviewPane.HostCallLog` | components/PreviewPane.tsx:101-110 | The host calls write at most one line each, and every line is the abort line or the exit line. A run of only `fd_write` calls writes nothing. |
| `PreviewPane.HostCallLines` | components/PreviewPane.tsx:101-110 | On its own, `abort` writes exactly the abort line, `proc_exit` exactly the exit line, and `fd_write` nothing. |
| `PreviewPane.HostCallLogAppend` | components/PreviewPane.tsx:101-110 | The host calls' lines appear in the order the module makes the calls. |
| `PreviewPane.EntryLog` | components/PreviewPane.tsx:122-132 | Defines the lines the entry-point step writes: the announcement of the resolved entry, then the host calls' lines, then the failure report if the entry traps. With no entry, it is the warning and the exports line. `MainPreferred`, `StartFallback`, `NoEntryWarns` and `EntryTrapReportedAsInstantiationFailure` pin it down case by case. |
| `PreviewPane.InstantiateLog` | components/PreviewPane.tsx:114-137 | Defines the lines written from instantiation on. First come the lines of the host calls made while instantiating. After that, either the failure report, or the success and divider lines followed by `EntryLog`. `InstantiationFailureReported` states the failure case. |
| `PreviewPane.ExecuteLog` | components/PreviewPane.tsx:94-141 | Defines the whole terminal after a run: the reading line, then either the load-failure line or the instantiating line followed by `InstantiateLog`. `ReadFailureReported` states the read-failure case, and `Panel.Execute` is proved to leave exactly this log. |
| `PreviewPane.ReadFailureReported` | components/PreviewPane.tsx:96-140 | A read failure writes the reading notice and one "[ERROR] Failed to load file: …" line, and loads nothing. |
| `PreviewPane.InstantiationFailureReported` | components/PreviewPane.tsx:114-137 | An instantiation failure ends the log with "[ERROR] Instantiation Failed:" and the message, and loads nothing. |
| `PreviewPane.EntryTrapReportedAsInstantiationFailure` | components/PreviewPane.tsx:114-137 | A trap in the entry point gets the same two-line report, but the module counts as loaded. |
| `PreviewPane.Visible` | components/PreviewPane.tsx:185 | The screen shows the chunks written after the last full-screen clear, and none of them is a clear. |
| `PreviewPane.StopShowsBanner` | components/PreviewPane.tsx:199-202 | After a stop the screen shows the boot banner and then the termination notice, whatever was written before. |
| `PreviewPane.SimulateShowsBox` | components/PreviewPane.tsx:179-192 | After a simulated run the screen shows exactly the five-line simulation panel. |
| `PreviewPane.Panel.constructor` | components/PreviewPane.tsx:37-40 | The panel starts with no files, not loaded, no instance and no terminal. |
| `PreviewPane.Panel.Attach` | components/PreviewPane.tsx:61-67 | Creating the terminal writes the boot banner and nothing else. |
| `PreviewPane.Panel.Log` | components/PreviewPane.tsx:87-89 | Appends one log line when the terminal exists, and nothing otherwise. |
| `PreviewPane.Panel.Drop` | components/PreviewPane.tsx:156-174 | Appends the classified batch after the existing entries and appends the drop's log to the terminal. It touches neither the flag nor the instance. |
| `PreviewPane.Panel.Remove` | components/PreviewPane.tsx:205-207 | The list becomes its filter by name, and nothing else changes. |
| `PreviewPane.Panel.Execute` | components/PreviewPane.tsx:91-142 | Without a terminal nothing happens. Otherwise the terminal becomes exactly the run's log, and the flag and the instance are set exactly when the read and the instantiation both succeed. The file list is unchanged. |
| `PreviewPane.Panel.Load` | components/PreviewPane.tsx:94-142 | Once the terminal exists: the terminal becomes exactly the run's log, and the flag and the instance are set exactly when the read and the instantiation both succeed. The file list is unchanged. |
| `PreviewPane.Panel.Instantiate` | components/PreviewPane.tsx:114-137 | The instance and the flag are set only after instantiation succeeds. On failure both keep their old values. |
| `PreviewPane.Panel.RunEntryPoint` | components/PreviewPane.tsx:122-132 | Writes the entry-point log: the announcement, the host calls and any trap report, or the no-entry warning and the export list. |
| `PreviewPane.Panel.RunOffered` | components/PreviewPane.tsx:275 | Defines the RUN button's guard: the entry is a `wasm` module and nothing is loaded. `Panel.ClickRun` is proved to change nothing when it is false. |
| `PreviewPane.Panel.ClickRun` | components/PreviewPane.tsx:275-282 | A RUN click does something only for a `wasm` entry while nothing is loaded. Then it runs that entry's file, and afterwards the flag is set exactly when the module loaded. Without a terminal, nothing changes. |
| `PreviewPane.Panel.SimulateRun` | components/PreviewPane.tsx:176-193 | Sets the flag without creating an instance. The terminal becomes the cursor-hide sequence, a clear and the simulation panel. |
| `PreviewPane.Panel.Stop` | components/PreviewPane.tsx:195-203 | Clears the flag and the instance. It appends the cursor-show sequence, a clear, the boot banner and the termination notice. |
| `PreviewPane.Panel.ClickControl` | components/PreviewPane.tsx:212-230 | The control button stops while loaded and simulates a run otherwise, so it flips the flag whenever the terminal exists. Without a terminal, nothing changes. |
| `Text.IsJsSpace` | App.tsx:21 | Defines the characters `trim()` strips: ECMAScript's WhiteSpace and LineTerminator code points. `Trim`'s contract is stated in terms of it. |
| `Text.Trim` | App.tsx:21 | `trim()` gives the empty string exactly when the text is all ECMAScript white space. A non-empty result neither starts nor ends with white space. The result is the slice of the text between a blank prefix and a blank suffix. |
| `App.Accepts` | App.tsx:21 | A send is accepted exactly when the content is not blank and no send is in flight. |
| `App.Reply` | App.tsx:37-53 | The model message carries the reply text on success. On failure it carries the fixed error text with `isError` set. |
| `App.Begin` | App.tsx:23-32 | Defines the synchronous part of an accepted send: the user message appended, the input cleared, the state LOADING, the topic kept. `ChatController.BeginSend` is proved to produce exactly this state. |
| `App.Finish` | App.tsx:34-56 | Defines the continuation: the `Reply` message appended and the state back to IDLE, the input and the topic kept. `ChatController.FinishSend` is proved to produce exactly this state. |
| `App.AfterSend` | App.tsx:20-57 | A refused send changes nothing. An accepted one appends the user message and then the model message, clears the input and ends idle. |
| `App.TranscriptGrowsByTwo` | App.tsx:30-56 | From idle, the transcript is only ever extended. Every non-blank send adds exactly two messages, earlier messages are kept, and the flag ends idle. |
| `App.RefusedWhileLoading` | App.tsx:21 | While a send is in flight, any series of further sends changes nothing. |
| `App.ChatController.SendEnabled` | App.tsx:132-134 | The send button is enabled exactly when the send guard would accept the input. |
| `App.ChatController.constructor` | App.tsx:12-15 | Empty transcript, empty input, idle, no topic. |
| `App.ChatController.Type` | App.tsx:124-131 | The input box takes the typed value, except while loading, when it is disabled. |
| `App.ChatController.BeginSend` | App.tsx:20-32 | Accepts exactly as the guard says. When accepted it appends one user message with the given content, clears the input and sets LOADING. Otherwise nothing changes. |
| `App.ChatController.FinishSend` | App.tsx:34-56 | Appends exactly one model message, either the reply or the error, and returns to IDLE. |
| `App.ChatController.Send` | App.tsx:20-57 | The whole send handler has exactly the effect `AfterSend` describes. |
| `App.ChatController.SelectTopic` | App.tsx:59-62 | Records the topic's id even when the send is refused, then sends its prompt. |
| `App.ChatController.KeyDown` | App.tsx:64-69 | Enter without Shift sends the current input. Every other key, including Shift+Enter, changes nothing. |
| `App.ChatController.ClickSend` | App.tsx:132-134 | A click sends the input, and the transcript grows by two exactly when the button was enabled. |

## Left out

- Terminal construction is not modelled: the options, theme, fit add-on, resize listener, the 100 ms re-fit timer and disposal on unmount. They belong to a foreign library and timers. The terminal is only an append-only list of chunks with a reset.
- The real `WebAssembly.instantiate`, `WebAssembly.Memory({ initial: 256 })` and the bytes of the file are not modelled. They are foreign calls, so the model takes their outcomes as parameters. A failure to allocate the memory, which the outer handler would report as a load failure, is not modelled.
- The import objects themselves are not modelled. `fd_write` returns 0 and is otherwise modelled only as writing nothing, and the other imports only by the lines they write.
- An error without a `message` property (the log would show "undefined") is not modelled. Failures carry a message string.
- Drag-over and drag-leave highlighting, all JSX, icons and the KB size display are not modelled. They are presentation and floating-point formatting.
- `Panel.Execute` runs as one step. Between its awaits a second RUN click can start another run, because the flag is only set after instantiation. That interleaving is not modelled, and neither is React's batching of state updates.
- `App.ChatController.Send` runs as one step. `BeginSend`/`FinishSend` expose the await point, but overlapping sends that both pass the guard through a stale closure are not modelled.
- The transcript history passed to the chat service is not modelled. The handler passes the transcript as it was before this send, without the new user message, which goes separately as the content. The service then drops the last entry of that history (`history.slice(0, -1)` in services/geminiService.ts), so the previous reply never reaches the model. The reply is a parameter here, so this does not affect the model.
- Message ids and timestamps are not modelled. They are clock values.
- `services/geminiService.ts` is not part of this model. It does network I/O through a third-party client.
- `components/ChatArea.tsx`, `components/Sidebar.tsx`, `components/ui/TuiPanel.tsx` and `constants.ts` are not part of this model. They are rendering and static data.
- The split/chat view toggle is not modelled. Hiding the preview unmounts the panel and discards all its state: the mounted files, the flag, the instance and the terminal. Showing it again is a new `Panel` followed by `Attach`.
- `PreviewPane.Visible` is weaker than a real terminal. It treats a chunk as a clear only when the whole chunk is the clear-screen sequence. It does not interpret escape sequences inside other chunks, line wrapping or scrollback.
