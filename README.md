# adizilla_01.OS core, modelled in Dafny

This project models the parts of the adizilla_01.OS dashboard that hold real logic:

- The terminal panel's command interpreter. It trims a submitted line and splits it on single spaces. The lower-cased first word picks a command. The panel then appends lines to its output history and makes calls into the store.
- The decoy calculator. Its display string reacts to key presses, and the hidden code "7701" fires the unlock callback.
- The file-system panel's listing. It has six fixed directory keys, and the selected key's entries are listed newest first.
- The shared record and enum types: processes, events, file entries, snapshots and the session state.

Modules:

- `Types` (types.ts): datatypes for the enums and records, the 0..100 validity ranges, and string round trips for the enum values.
- `Text`: the JavaScript string built-ins the shell uses, written out. These are `trim` over the ECMAScript whitespace set, `split(' ')`, `join(' ')`, ASCII `toLowerCase`, `padEnd` (counting code points), and the decimal rendering of whole numbers.
- `Shell` (components/TerminalShell.tsx):
  - `Parse` reads a line into a command and its arguments.
  - `Execute` is the switch, as a function from the command to a `Reply` (result lines plus store calls).
  - `Interpret` composes the two.
  - The class `Terminal` holds `input`, `history` and the recorded store calls. Its `HandleCommand` method is proved to leave exactly the state that `Interpret` describes.
- `Calculator` (components/CalculatorDisguise.tsx): the class `Calculator` with its `display` field and the `Press` method. The function `Run` is a run of presses, and the lemmas about unlocking are stated over it.
- `FileSystemView` (components/FileSystemView.tsx): the directory constant, the selection, and the reversed listing with its placeholder test.

The store behind the panels is outside the model. The panel reads a `StoreView` (processes, snapshots, integrity score). Each call it makes is an `Effect`, appended to `Terminal.effects` in call order: a `dispatch` of KILL_PROCESS, TAKE_SNAPSHOT or ROLLBACK, `emitEvent`, `elevate` or `toggleGhostMode`. The boolean that `elevate` answers is the parameter `granted`. `toLocaleTimeString` is the parameter `formatTime`.

A few places where the code's own behaviour is what is modelled:

- `ps` puts the ` └─ ` marker on a row when `parentId` is truthy. A process whose parent id is the empty string therefore gets no marker, like one with no parent (`Shell.RowMarkedUnderParent`).
- `split(' ')` turns two spaces in a row into an empty argument. So `kill  p3` prints the usage line and kills nothing (`Shell.DoubleSpaceGivesEmptyArgument`).
- The unknown-command line names the lower-cased word, not the word as typed.
- `clear` leaves the history empty. The echo line appended just before it is dropped with everything else, because the last history update wins.
- The calculator's unlock check compares the whole display, as it was before the press, followed by the key with "7701". Text already shown stays in front of the code, so typing "7701" after other text never unlocks until 'C' is pressed. For one-character keys this is the same as checking the display after the press.

## Model

| member | source | states |
|---|---|---|
| Types.ParseProcessState | types.ts:2-8 | reading a state back yields a state whose value is that string, and no state has a string that reads as none |
| Types.ProcessStateRoundTrip | types.ts:2-8 | every process state's string value reads back to that same state |
| Types.ParsePermission | types.ts:10-14 | reading a permission level back is exact: some level exactly when one has that value |
| Types.PermissionRoundTrip | types.ts:10-14 | every permission level, including the session's context, reads back from its value |
| Types.ParseSeverity | types.ts:33 | a severity string reads back exactly when it is one of info, low, medium, high, critical |
| Types.SeverityRoundTrip | types.ts:33 | every severity reads back from its literal |
| Types.SnapshotShapesMatchState | types.ts:43-57 | a snapshot's process list and file map have the live fields' types; put in their place, they keep a valid state valid (metrics within 0..100) |
| Text.Trim | components/TerminalShell.tsx:23-25 | the trimmed line has no whitespace at either end, is no longer than the input, and is empty exactly when the input is all whitespace |
| Text.TrimIsSlice | components/TerminalShell.tsx:25 | the trimmed line is a contiguous slice of the input with only whitespace before and after it |
| Text.TrimIdempotent | components/TerminalShell.tsx:25 | trimming twice is trimming once |
| Text.TrimUnchanged | components/TerminalShell.tsx:25 | a line with no whitespace at its ends is left as it is |
| Text.TrimPadded | components/TerminalShell.tsx:25 | whitespace added around such a line is exactly what trim removes |
| Text.Split | components/TerminalShell.tsx:26 | the split has one piece more than there are separators, and no piece contains the separator |
| Text.SplitJoin | components/TerminalShell.tsx:26-28 | splitting a join of separator-free words gives back those words |
| Text.JoinSplit | components/TerminalShell.tsx:26 | joining the pieces of a split gives back the string |
| Text.Join | components/TerminalShell.tsx:82 | reference definition of `join(sep)`: the words with one separator between neighbours; its properties are stated by Text.SplitJoin, Text.JoinSplit and Text.JoinEmpty |
| Text.JoinEmpty | components/TerminalShell.tsx:82 | a join is empty exactly for no words or one empty word |
| Text.Lower | components/TerminalShell.tsx:27 | lower-casing keeps the length, turns each upper-case letter A-Z into its own lower-case letter a-z (the same letter, 32 code points on), changes nothing else, and leaves no upper-case letter |
| Text.LowerIdempotent | components/TerminalShell.tsx:27 | lower-casing twice is lower-casing once |
| Text.LowerOfLower | components/TerminalShell.tsx:27 | a word with no upper-case letter is its own lower-case form |
| Text.PadEnd | components/TerminalShell.tsx:55 | the padded cell starts with the text, is filled with spaces, and has the width or the text's own length, whichever is larger |
| Text.NatToString | components/TerminalShell.tsx:61 | the rendering of a count is non-empty, digits only, with no leading zero |
| Text.NatToStringValue | components/TerminalShell.tsx:61 | the digits rendered for a count read back as that count |
| Text.IntToString | components/TerminalShell.tsx:60 | a whole number renders as the decimal digits of its magnitude, with a leading '-' when it is negative |
| Shell.CommandOf | components/TerminalShell.tsx:32-93 | a word falls through to the default case exactly when it is not one of the nine command words, and then it carries that word; Shell.CommandRoundTrip and Shell.WordRoundTrip state which case each word selects |
| Shell.CommandRoundTrip | components/TerminalShell.tsx:33-90 | each of the nine cases has its own `case` word, that word is a command word, and it selects exactly that case |
| Shell.WordRoundTrip | components/TerminalShell.tsx:32-93 | every word reads back from the case it selects: a command word from its case, any other word from the fall-through |
| Shell.ShoutedHelp | components/TerminalShell.tsx:27 | `HELP` lower-cases to `help` and so selects the help case |
| Shell.Execute | components/TerminalShell.tsx:32-94 | reference definition of the switch: the result lines and store calls of each command; its cases are stated by Shell.KillCommand, Shell.SudoCommand, Shell.SnapTakeCommand, Shell.SnapRestoreCommand, Shell.SnapListCommand, Shell.PsCommand, Shell.NodesCountsRunning, Shell.ApkCommand, Shell.GhostCommand, Shell.UnknownCommand, Shell.OnlyClearClears, Shell.AtMostOneStoreCall and Shell.ExecuteNeverIgnored |
| Shell.Parse | components/TerminalShell.tsx:23-28 | a line yields no command exactly when it is empty or all whitespace |
| Shell.Interpret | components/TerminalShell.tsx:21-94 | reference definition of one submission: a blank line is ignored and any other line runs the command it reads as; Shell.BlankLineIgnored, Shell.ParseWords and Shell.Terminal.HandleCommand state what it does |
| Shell.ExecuteNeverIgnored | components/TerminalShell.tsx:32-94 | every command has an effect: only a blank line is ignored |
| Shell.BlankLineIgnored | components/TerminalShell.tsx:23 | submitting a line is ignored exactly when the line is empty or all whitespace |
| Shell.ParseJoin | components/TerminalShell.tsx:25-28 | for words separated by single spaces, the command is the first word lower-cased and the arguments are the other words, case kept |
| Shell.ParseWords | components/TerminalShell.tsx:23-28 | the same holds with any whitespace around the line |
| Shell.DoubleSpaceParse | components/TerminalShell.tsx:26-28 | `kill  <id>` reads as `kill` with an empty first argument followed by the id |
| Shell.DoubleSpaceGivesEmptyArgument | components/TerminalShell.tsx:26-28 | so `kill  <id>` prints the usage line and dispatches nothing |
| Shell.LowerKeepsWordShape | components/TerminalShell.tsx:27 | lower-casing a command word keeps it free of spaces and of whitespace at its ends |
| Shell.CommandWordCaseInsensitive | components/TerminalShell.tsx:27 | a line whose command word is already lower-cased reads the same as the original line |
| Shell.ParseWord | components/TerminalShell.tsx:23-28 | a bare word with no whitespace at its ends reads as the command its lower-cased form names, with no arguments |
| Shell.BareCommandWordCaseInsensitive | components/TerminalShell.tsx:27 | a bare command word such as `HELP` or `PS` reads the same as its lower-cased form |
| Shell.KillCommand | components/TerminalShell.tsx:69-72 | a missing or empty id gives exactly one usage line and no call; otherwise exactly one KILL_PROCESS for that id and no line |
| Shell.SudoCommand | components/TerminalShell.tsx:73-79 | a missing or empty secret gives one usage line and no `elevate`; otherwise one `elevate` with that secret and one line chosen by its answer |
| Shell.SnapTakeCommand | components/TerminalShell.tsx:80-82 | `snap take` dispatches one TAKE_SNAPSHOT labelled with the later words joined by spaces, or "manual" when they join to nothing, and prints nothing |
| Shell.SnapLabel | components/TerminalShell.tsx:82 | reference definition of the snapshot label: the words after `take` joined by spaces, or "manual" when that is empty; Shell.SnapTakeLabel states when each case applies and that the words split back out |
| Shell.SnapTakeLabel | components/TerminalShell.tsx:82 | the label is "manual" exactly for no words or one empty word; otherwise it is the words, which split back out of it |
| Shell.SnapRestoreCommand | components/TerminalShell.tsx:83-84 | `snap restore` dispatches one ROLLBACK with the second argument, which may be missing, and prints nothing |
| Shell.SnapListCommand | components/TerminalShell.tsx:85-87 | any other `snap` prints SNAPSHOT_LIST: and then one row per snapshot, in order, and calls nothing |
| Shell.SnapshotRow | components/TerminalShell.tsx:86 | reference definition of one snapshot row: id, label and formatted time between ` \| ` separators; Shell.SnapshotRows and Shell.SnapListCommand place one per snapshot |
| Shell.ProcessRows | components/TerminalShell.tsx:55 | one row per process, in collection order |
| Shell.SnapshotRows | components/TerminalShell.tsx:86 | one row per snapshot, in order |
| Shell.PsCommand | components/TerminalShell.tsx:54-57 | `ps`, with any arguments, prints PROCESS_TREE: and then one row per process, in order, and calls nothing |
| Shell.ProcessRow | components/TerminalShell.tsx:55 | reference definition of one `ps` row; Shell.RowMarkedUnderParent and Shell.RowStartsWithPaddedId state where the marker and the id go |
| Shell.RowMarkedUnderParent | components/TerminalShell.tsx:55 | a row carries the parent marker exactly when the parent id is set and not empty, and otherwise matches the root row |
| Shell.RowStartsWithPaddedId | components/TerminalShell.tsx:55 | every row shows the process id at a fixed column: after the indent, and after the marker if there is one |
| Shell.CountRunning | components/TerminalShell.tsx:61 | the RUNNING count is at most the process count, equals it exactly when all run, and is zero exactly when none runs; Shell.CountRunningCounts gives its value |
| Shell.CountRunningCounts | components/TerminalShell.tsx:61 | the count is the number of RUNNING entries in the processes' states, the filter's length |
| Shell.NodesCountsRunning | components/TerminalShell.tsx:58-64 | `nodes`, with any arguments, prints three lines and calls nothing, and its ACTIVE_NODES figure reads back as the number of RUNNING processes |
| Shell.NodesLines | components/TerminalShell.tsx:59-63 | reference definition of the three `nodes` lines; Shell.NodesCountsRunning states that the ACTIVE_NODES figure is the RUNNING count |
| Shell.ApkCommand | components/TerminalShell.tsx:46-53 | `apk` prints the build banner and emits exactly one BUILD_REQUEST from SHELL for android, dispatching nothing |
| Shell.GhostCommand | components/TerminalShell.tsx:65-68 | `ghost` toggles ghost mode exactly once and prints one line |
| Shell.UnknownCommand | components/TerminalShell.tsx:92-93 | any other word prints exactly one COMMAND_NOT_FOUND line naming it and does nothing else |
| Shell.OnlyClearClears | components/TerminalShell.tsx:89-90 | the history is wiped exactly for `clear` |
| Shell.AtMostOneStoreCall | components/TerminalShell.tsx:32-94 | a line makes at most one store call: a dispatch only from kill or snap, an event only from apk, an elevation only from sudo, a toggle only from ghost |
| Shell.Terminal.constructor | components/TerminalShell.tsx:7-8 | the panel starts with an empty input, the two banner lines and no calls |
| Shell.Terminal.SetInput | components/TerminalShell.tsx:114 | typing sets the input text and nothing else |
| Shell.Terminal.AddLog | components/TerminalShell.tsx:16-19 | lines are appended to the history, in order, and nothing else changes |
| Shell.Terminal.Call | components/TerminalShell.tsx:9 | a store call is appended to the recorded calls and nothing else changes |
| Shell.Terminal.HandleCommand | components/TerminalShell.tsx:21-97 | a blank line changes nothing; `clear` empties the history and the input; any other line appends the echo of the trimmed line and then the command's lines, adds its store calls, and empties the input |
| Shell.Terminal.Submit | components/TerminalShell.tsx:30-96 | for a non-blank line: the echo of the trimmed line, then exactly the command's lines and store calls, and the input box emptied; after `clear` the history is empty |
| Shell.SubmitBlank | components/TerminalShell.tsx:23 | a line that trims to nothing is ignored by the handler |
| Shell.SubmitLine | components/TerminalShell.tsx:25-32 | any other line runs the command named by its lower-cased first word on the remaining words, and it is never ignored: the line is echoed, or the history is cleared |
| Shell.Terminal.RunCommand | components/TerminalShell.tsx:32-94 | the switch appends exactly the command's lines and store calls, or empties the history for `clear` |
| Calculator.Calculator.constructor | components/CalculatorDisguise.tsx:5 | the display starts as "0" |
| Calculator.Calculator.Press | components/CalculatorDisguise.tsx:7-16 | 'C' resets to "0", a "0" display is replaced by the key, any other display gets the key appended; unlock fires exactly when the old display followed by the key is "7701" |
| Calculator.Next | components/CalculatorDisguise.tsx:8-10 | reference definition of the display after a press: reset on 'C', replace "0", otherwise append; Calculator.Calculator.Press, Calculator.ClearResets, Calculator.DisplayNeverEmpty and Calculator.KeysShownAsText state its properties |
| Calculator.Unlocks | components/CalculatorDisguise.tsx:13 | reference definition of the unlock check on the display before the press; Calculator.UnlockNeeds and Calculator.UnlockExactly state that only '1' on "770" passes it |
| Calculator.KeypadKeysAreSingle | components/CalculatorDisguise.tsx:25 | every keypad key is one character |
| Calculator.ClearResets | components/CalculatorDisguise.tsx:8-15 | 'C' always shows "0" and never unlocks |
| Calculator.UnlockNeeds | components/CalculatorDisguise.tsx:13-15 | for a one-character key, unlock fires exactly when the display is "770" and the key is '1' |
| Calculator.UnlockIsDisplayAfter | components/CalculatorDisguise.tsx:8-13 | for a one-character key, the check on the display before the press unlocks exactly when the display after the press is the code |
| Calculator.UnlockExactly | components/CalculatorDisguise.tsx:13-15 | the same for every keypad key |
| Calculator.DisplayNeverEmpty | components/CalculatorDisguise.tsx:8-10 | a keypad press never leaves the display empty |
| Calculator.Run | components/CalculatorDisguise.tsx:7-16 | a run of presses records one unlock answer per press |
| Calculator.RunNeverEmpty | components/CalculatorDisguise.tsx:5-10 | starting from a non-empty display, no run of keypad presses leaves it empty |
| Calculator.SecretFromInitial | components/CalculatorDisguise.tsx:5-15 | from "0", pressing 7, 7, 0, 1 unlocks once, on the last press |
| Calculator.SecretAfterClear | components/CalculatorDisguise.tsx:8-15 | from any display, 'C' and then the code unlocks once, on the last press |
| Calculator.SecretBlockedByText | components/CalculatorDisguise.tsx:10-13 | when other text is shown, typing the code never unlocks |
| Calculator.StepOnText | components/CalculatorDisguise.tsx:10-13 | on text, a '7' or '0' is appended and does not unlock |
| Calculator.KeysShownAsText | components/CalculatorDisguise.tsx:9-10 | without 'C', the keys are appended as text, operators included: no arithmetic is done |
| Calculator.TypeCodeOnFreshCalculator | components/CalculatorDisguise.tsx:5-15 | on a new calculator the four code presses answer false, false, false, true |
| FileSystemView.InitialPanel | components/FileSystemView.tsx:5-9 | the first selection is "/identity", the first of the six directories |
| FileSystemView.Select | components/FileSystemView.tsx:18 | clicking a directory selects it, and the selection stays one of the six |
| FileSystemView.Reverse | components/FileSystemView.tsx:30 | the reversed copy has the same length |
| FileSystemView.ReverseAt | components/FileSystemView.tsx:30 | position k of the copy holds the element k places from the end |
| FileSystemView.ReverseReverse | components/FileSystemView.tsx:30 | reversing the copy back gives the original |
| FileSystemView.Listing | components/FileSystemView.tsx:30 | a missing key lists nothing; otherwise the stored entries, newest first, all of them |
| FileSystemView.ListingKeepsStored | components/FileSystemView.tsx:30 | the stored list can be read back from the listing unchanged |
| FileSystemView.Stored | components/FileSystemView.tsx:30 | reference definition of `fileSystem[dir] \|\| []`: the stored entries, or none for a missing key; FileSystemView.Listing and FileSystemView.ListingKeepsStored relate the listing to it |
| FileSystemView.AppendedListedFirst | components/FileSystemView.tsx:30 | an entry appended under a key is listed first, ahead of the older ones |
| FileSystemView.ShowsPlaceholder | components/FileSystemView.tsx:41 | reference definition of the placeholder test; FileSystemView.PlaceholderIffNoEntries states that it holds exactly when the listing is empty |
| FileSystemView.PlaceholderIffNoEntries | components/FileSystemView.tsx:41-43 | "No entries found." shows exactly when the listing is empty |

## Left out

- The store (`OSContext`): its reducer, process simulator, integrity score, notifications, event cap, and snapshot copy and rollback. OSContext is not part of this model. The panel's calls into it are only recorded as effects, and what they do to the state is not modelled.
- services/intelligenceService.ts, components/BootScreen.tsx, components/PlatformManager.tsx, components/Dashboard.tsx and App.tsx. These are network calls, timer-driven animations, presentation and view routing.
- Date formatting: `toLocaleTimeString` in the snapshot list is the parameter `formatTime`. The file view's `toISOString` line is presentation and is not modelled.
- React plumbing: the scroll-into-view effect, the JSX rendering, and the batching of `setHistory` updates. Batching is modelled only as its outcome: the updates apply in order within one submission.
- Text.Lower: models `toLowerCase` on ASCII letters only; other scripts' case mapping is not modelled.
- Shell.NodesLines: the integrity score is a whole number here. JavaScript's rendering of a fractional score is not modelled.
- Types.Payload: event payloads are either a platform name or opaque, not any JavaScript value.
- Types.SystemProcess: `weight`, `memory` and `lastUpdate` are whole numbers here, not JavaScript floating-point numbers.
- Types.FileEntry: `version` and `timestamp` are whole numbers here, not JavaScript floating-point numbers.
- Text.PadEnd: lengths are counted in Unicode code points, not in the UTF-16 code units JavaScript counts. A character outside the Basic Multilingual Plane therefore gets one more pad space in the model than in the panel.
- Shell.DoubleSpaceGivesEmptyArgument: stated for one id with no space or trailing whitespace, the case the line's form covers; it is not a general statement about every run of spaces.
- Shell.CommandWordCaseInsensitive: stated for lines with at least one argument whose words have no whitespace at the ends. Shell.BareCommandWordCaseInsensitive covers a command word on its own.
- Calculator.KeysShownAsText: stated for keys other than 'C' on a display that is neither empty nor "0". From "0" the first key replaces the display, which Calculator.Calculator.Press states.
