/** The terminal panel's command interpreter. One submitted line is
    trimmed, split on single spaces, and its lower-cased first word picks a
    command; the panel appends lines to its own output history and makes
    calls into the store, which here are only recorded, in order. */
module Shell {
  import opened Types
  import opened Text

  const Prompt: string := "root@adizilla:~# "

  /** The two lines the history starts with. */
  const Banner: seq<string> :=
    ["ADIZILLA_01 [CORE_SHELL] READY.", "Type \"help\" for a list of system operations."]

  const HelpLines: seq<string> := [
    "SYSTEM COMMANDS:",
    "  ps              - List active process tree",
    "  kill [id]       - Terminate process node",
    "  nodes           - System health summary",
    "  apk             - Initiate Android Build sequence",
    "  ghost           - Toggle system ghost behavior",
    "  sudo [cmd]      - Elevate permission context",
    "  snap take [msg] - Create system state snapshot",
    "  clear           - Wipe console history"]

  const ApkLines: seq<string> := [
    "INITIATING ANDROID BINARY BUILD...",
    "TARGET: ARM64-V8A",
    "STATUS: RUNNING (SEE DEPLOY_HOST PANEL)"]

  const GhostLine: string := "Ghost mode toggled. Network behavior adjusted."
  const KillUsage: string := "Usage: kill [id]"
  const SudoUsage: string := "Usage: sudo [password]"
  const SudoGranted: string := "PERMISSION ELEVATED TO SYSTEM_LEVEL."
  const SudoDenied: string := "AUTH FAILURE. LOGGING ATTEMPT."
  const DefaultLabel: string := "manual"
  const ParentMarker: string := " └─ "

  /** The command words the interpreter knows. */
  const Commands: seq<string> := ["help", "apk", "ps", "nodes", "ghost", "kill", "sudo", "snap", "clear"]

  /** The store actions the shell dispatches. A missing snapshot id is
      passed on as it is. */
  datatype Action =
    | KillProcess(id: string)
    | TakeSnapshot(snapshotLabel: string)
    | Rollback(snapshotId: Option<string>)

  /** One call into the store. */
  datatype Effect =
    | Dispatch(action: Action)
    | Emit(eventType: string, source: string, payload: Payload)
    | Elevate(secret: string)
    | ToggleGhost

  /** What the shell reads from the store when a line is submitted. */
  datatype StoreView = StoreView(
    processes: seq<SystemProcess>,
    snapshots: seq<StateSnapshot>,
    integrityScore: int)

  /** What a submitted line does: nothing at all, wipe the history, or add
      result lines (after the echo) and make store calls. */
  datatype Reply =
    | Ignored
    | Cleared
    | Ran(lines: seq<string>, effects: seq<Effect>)

  /** The history line that echoes an accepted command. */
  function Echo(raw: string): string {
    Prompt + raw
  }

  function NotFound(cmd: string): string {
    "COMMAND_NOT_FOUND: " + cmd + ". Type \"help\" for options."
  }

  /** `args[i]`, or nothing past the end. */
  function Arg(args: seq<string>, i: nat): (a: Option<string>)
    ensures a.Some? <==> i < |args|
    ensures a.Some? ==> a.value == args[i]
  {
    if i < |args| then Some(args[i]) else None
  }

  /** JavaScript truthiness of an argument: present and not empty. */
  predicate Given(a: Option<string>) {
    a.Some? && a.value != ""
  }

  /** A row is indented under its parent when `parentId` is truthy: set and
      not empty. */
  predicate HasParent(p: SystemProcess) {
    p.parentId.Some? && p.parentId.value != ""
  }

  /** One `ps` row: marker, padded id, name and state, and the permission. */
  function ProcessRow(p: SystemProcess): string {
    "  " + (if HasParent(p) then ParentMarker else "")
      + PadEnd(p.id, 8) + " | " + PadEnd(p.name, 14) + " | "
      + PadEnd(ProcessStateName(p.state), 10) + " | " + PermissionName(p.permission)
  }

  /** The `ps` rows: one per process, in collection order. */
  function ProcessRows(ps: seq<SystemProcess>): (rows: seq<string>)
    ensures |rows| == |ps|
    ensures forall i :: 0 <= i < |ps| ==> rows[i] == ProcessRow(ps[i])
  {
    if ps == [] then [] else [ProcessRow(ps[0])] + ProcessRows(ps[1..])
  }

  /** How many processes are RUNNING: at most all of them, all of them
      exactly when every one runs, none exactly when none does. */
  function CountRunning(ps: seq<SystemProcess>): (n: nat)
    ensures n <= |ps|
    ensures n == |ps| <==> forall i :: 0 <= i < |ps| ==> ps[i].state == RUNNING
    ensures n == 0 <==> forall i :: 0 <= i < |ps| ==> ps[i].state != RUNNING
  {
    if ps == [] then 0
    else
      var rest := CountRunning(ps[1..]);
      assert forall i :: 1 <= i < |ps| ==> ps[i] == ps[1..][i - 1];
      (if ps[0].state == RUNNING then 1 else 0) + rest
  }

  /** The states of the processes, in order. */
  function States(ps: seq<SystemProcess>): (states: seq<ProcessState>)
    ensures |states| == |ps|
    ensures forall i :: 0 <= i < |ps| ==> states[i] == ps[i].state
  {
    seq(|ps|, i requires 0 <= i < |ps| => ps[i].state)
  }

  /** The count is the number of RUNNING entries among the states. */
  lemma {:induction false} CountRunningCounts(ps: seq<SystemProcess>)
    ensures CountRunning(ps) == multiset(States(ps))[RUNNING]
  {
    if ps != [] {
      assert States(ps) == [ps[0].state] + States(ps[1..]);
      CountRunningCounts(ps[1..]);
    }
  }

  const ActiveNodesPrefix: string := "ACTIVE_NODES:    "

  function NodesLines(view: StoreView): seq<string> {
    ["INTEGRITY_SCORE: " + IntToString(view.integrityScore) + "%",
     ActiveNodesPrefix + NatToString(CountRunning(view.processes)),
     "UPLINK_STATUS:   NOMINAL"]
  }

  /** One snapshot row; `formatTime` stands for the locale's time format. */
  function SnapshotRow(s: StateSnapshot, formatTime: int -> string): string {
    "  " + s.id + " | " + s.labelText + " | " + formatTime(s.timestamp)
  }

  /** The snapshot list rows: one per snapshot, in order. */
  function SnapshotRows(ss: seq<StateSnapshot>, formatTime: int -> string): (rows: seq<string>)
    ensures |rows| == |ss|
    ensures forall i :: 0 <= i < |ss| ==> rows[i] == SnapshotRow(ss[i], formatTime)
  {
    if ss == [] then [] else [SnapshotRow(ss[0], formatTime)] + SnapshotRows(ss[1..], formatTime)
  }

  /** The label of `snap take ...`: the words after `take` joined by single
      spaces, or "manual" when that join is empty. */
  function SnapLabel(args: seq<string>): string {
    var words := if |args| <= 1 then [] else args[1..];
    var joined := Join(words, ' ');
    if joined == "" then DefaultLabel else joined
  }

  /** The commands the switch knows, and the fall-through for any other
      word. */
  datatype Command = Help | Apk | Ps | Nodes | Ghost | Kill | Sudo | Snap | Clear | Unknown(word: string)

  /** Which case of the switch a (lower-cased) command word takes: the
      fall-through exactly for words outside the command set. */
  function CommandOf(word: string): (c: Command)
    ensures c.Unknown? <==> word !in Commands
    ensures c.Unknown? ==> c.word == word
  {
    if word == "help" then Help
    else if word == "apk" then Apk
    else if word == "ps" then Ps
    else if word == "nodes" then Nodes
    else if word == "ghost" then Ghost
    else if word == "kill" then Kill
    else if word == "sudo" then Sudo
    else if word == "snap" then Snap
    else if word == "clear" then Clear
    else Unknown(word)
  }

  /** The word that selects each case of the switch; the fall-through has
      the word it was given. */
  function WordOf(c: Command): string {
    match c
    case Help => "help"
    case Apk => "apk"
    case Ps => "ps"
    case Nodes => "nodes"
    case Ghost => "ghost"
    case Kill => "kill"
    case Sudo => "sudo"
    case Snap => "snap"
    case Clear => "clear"
    case Unknown(word) => word
  }

  /** Each of the nine cases is selected by its own word, and each command
      word selects the case it names. */
  lemma CommandRoundTrip(c: Command)
    requires !c.Unknown?
    ensures WordOf(c) in Commands && CommandOf(WordOf(c)) == c
  {
  }

  /** Every word reads back from the case it selects. */
  lemma WordRoundTrip(word: string)
    ensures WordOf(CommandOf(word)) == word
  {
  }

  /** The effect of command `c` with arguments `args`. `granted` is what the
      store's `elevate` answers; `formatTime` renders a timestamp. */
  function Execute(c: Command, args: seq<string>, view: StoreView, granted: bool,
                   formatTime: int -> string): Reply
  {
    match c
    case Help => Ran(HelpLines, [])
    case Apk => Ran(ApkLines, [Emit("BUILD_REQUEST", "SHELL", PlatformPayload("android"))])
    case Ps => Ran(["PROCESS_TREE:"] + ProcessRows(view.processes), [])
    case Nodes => Ran(NodesLines(view), [])
    case Ghost => Ran([GhostLine], [ToggleGhost])
    case Kill =>
      if !Given(Arg(args, 0)) then Ran([KillUsage], [])
      else Ran([], [Dispatch(KillProcess(args[0]))])
    case Sudo =>
      if !Given(Arg(args, 0)) then Ran([SudoUsage], [])
      else Ran([if granted then SudoGranted else SudoDenied], [Elevate(args[0])])
    case Snap =>
      if Arg(args, 0) == Some("take") then Ran([], [Dispatch(TakeSnapshot(SnapLabel(args)))])
      else if Arg(args, 0) == Some("restore") then Ran([], [Dispatch(Rollback(Arg(args, 1)))])
      else Ran(["SNAPSHOT_LIST:"] + SnapshotRows(view.snapshots, formatTime), [])
    case Clear => Cleared
    case Unknown(word) => Ran([NotFound(word)], [])
  }

  /** A submitted line read as a command and its arguments. */
  datatype Parsed = Parsed(command: Command, args: seq<string>)

  /** Reading a submitted line: a blank line is no command; otherwise the
      trimmed line's first space-separated word, lower-cased, picks the
      command and the other words, case kept, are its arguments. */
  function Parse(input: string): (p: Option<Parsed>)
    ensures p.None? <==> AllWhitespace(input)
  {
    var raw := Trim(input);
    if raw == "" then None
    else
      var parts := Split(raw, ' ');
      Some(Parsed(CommandOf(Lower(parts[0])), parts[1..]))
  }

  /** What submitting `input` does: a blank line is ignored, any other line
      runs the command it reads as. */
  function Interpret(input: string, view: StoreView, granted: bool,
                     formatTime: int -> string): Reply
  {
    match Parse(input)
    case None => Ignored
    case Some(p) => Execute(p.command, p.args, view, granted, formatTime)
  }

  /** Every command does something: only a blank line is ignored. */
  lemma ExecuteNeverIgnored(c: Command, args: seq<string>, view: StoreView, granted: bool,
                            formatTime: int -> string)
    ensures Execute(c, args, view, granted, formatTime) != Ignored
  {
  }

  /** A line is ignored exactly when it is blank: empty or only whitespace. */
  lemma BlankLineIgnored(input: string, view: StoreView, granted: bool, formatTime: int -> string)
    ensures Interpret(input, view, granted, formatTime) == Ignored <==> AllWhitespace(input)
  {
    var p := Parse(input);
    if p.Some? {
      ExecuteNeverIgnored(p.value.command, p.value.args, view, granted, formatTime);
    }
  }

  /** A line of words with no whitespace at its ends: the first word,
      lower-cased, is the command and the other words are its arguments. */
  lemma ParseJoin(words: seq<string>)
    requires |words| >= 1 && forall k :: 0 <= k < |words| ==> ' ' !in words[k]
    requires words[0] != "" && !IsWhitespace(words[0][0])
    requires words[|words| - 1] != "" && !IsWhitespace(words[|words| - 1][|words[|words| - 1]| - 1])
    ensures Parse(Join(words, ' ')) == Some(Parsed(CommandOf(Lower(words[0])), words[1..]))
  {
    var line := Join(words, ' ');
    JoinFirst(words, ' ');
    JoinLast(words, ' ');
    TrimUnchanged(line);
    assert Trim(line) == line;
    SplitJoin(words, ' ');
    assert Split(line, ' ') == words;
  }

  /** Whitespace around the line is dropped, the words are split on single
      spaces, the first word is lower-cased into the command, and the other
      words are the arguments with their case kept. */
  lemma ParseWords(w1: string, words: seq<string>, w2: string)
    requires AllWhitespace(w1) && AllWhitespace(w2)
    requires |words| >= 1 && forall k :: 0 <= k < |words| ==> ' ' !in words[k]
    requires words[0] != "" && !IsWhitespace(words[0][0])
    requires words[|words| - 1] != "" && !IsWhitespace(words[|words| - 1][|words[|words| - 1]| - 1])
    ensures Parse(w1 + Join(words, ' ') + w2) == Some(Parsed(CommandOf(Lower(words[0])), words[1..]))
  {
    var line := Join(words, ' ');
    JoinFirst(words, ' ');
    JoinLast(words, ' ');
    TrimPadded(w1, line, w2);
    assert Trim(w1 + line + w2) == line;
    SplitJoin(words, ' ');
    assert Split(line, ' ') == words;
  }

  /** Two spaces in a row make an empty argument: `kill  <id>` reads as
      `kill` with arguments "" and the id ... */
  lemma DoubleSpaceParse(id: string)
    requires id != "" && ' ' !in id && !IsWhitespace(id[|id| - 1])
    ensures Parse("kill" + "  " + id) == Some(Parsed(Kill, ["", id]))
  {
    var words := ["kill", "", id];
    JoinKill(id);
    KillWord();
    ParseJoin(words);
    assert words[1..] == ["", id];
  }

  /** The line `kill  <id>` joins the words "kill", "" and the id. */
  lemma JoinKill(id: string)
    ensures Join(["kill", "", id], ' ') == "kill" + "  " + id
  {
    var words := ["kill", "", id];
    assert words[1..] == ["", id] && words[1..][1..] == [id];
    assert Join([id], ' ') == id;
  }

  /** `kill` is already lower-case and names the kill command. */
  lemma KillWord()
    ensures CommandOf(Lower("kill")) == Kill
  {
    assert NoAsciiUpper("kill");
    LowerOfLower("kill");
  }

  /** ... so it prints the usage and kills nothing. */
  lemma DoubleSpaceGivesEmptyArgument(id: string, view: StoreView, granted: bool,
                                      formatTime: int -> string)
    requires id != "" && ' ' !in id && !IsWhitespace(id[|id| - 1])
    ensures Interpret("kill" + "  " + id, view, granted, formatTime) == Ran([KillUsage], [])
  {
    DoubleSpaceParse(id);
    assert Interpret("kill" + "  " + id, view, granted, formatTime)
        == Execute(Kill, ["", id], view, granted, formatTime);
    KillCommand(["", id], view, granted, formatTime);
  }

  /** Lower-casing keeps a word free of spaces and keeps its first and last
      characters non-whitespace. */
  lemma LowerKeepsWordShape(w: string)
    requires ' ' !in w && w != "" && !IsWhitespace(w[0]) && !IsWhitespace(w[|w| - 1])
    ensures var l := Lower(w);
      ' ' !in l && l != "" && !IsWhitespace(l[0]) && !IsWhitespace(l[|l| - 1])
  {
    var l := Lower(w);
    forall i | 0 <= i < |w| ensures l[i] != ' ' {
      if 'A' <= w[i] <= 'Z' {
        assert 'a' <= l[i] <= 'z';
      }
    }
    LowerKeepsNonWhitespace(w, 0);
    LowerKeepsNonWhitespace(w, |w| - 1);
  }

  /** Lower-casing a character that is not whitespace gives one that is not
      whitespace either. */
  lemma LowerKeepsNonWhitespace(w: string, i: nat)
    requires i < |w| && !IsWhitespace(w[i])
    ensures !IsWhitespace(Lower(w)[i])
  {
    if 'A' <= w[i] <= 'Z' {
      assert 'a' <= Lower(w)[i] <= 'z';
    }
  }

  /** The command word is case-insensitive: lower-casing it does not change
      how the line reads. */
  lemma CommandWordCaseInsensitive(words: seq<string>)
    requires |words| >= 2 && forall k :: 0 <= k < |words| ==> ' ' !in words[k]
    requires words[0] != "" && !IsWhitespace(words[0][0]) && !IsWhitespace(words[0][|words[0]| - 1])
    requires words[|words| - 1] != "" && !IsWhitespace(words[|words| - 1][|words[|words| - 1]| - 1])
    ensures Parse(Join([Lower(words[0])] + words[1..], ' ')) == Parse(Join(words, ' '))
  {
    var lowered := [Lower(words[0])] + words[1..];
    assert lowered[1..] == words[1..];
    assert lowered[|lowered| - 1] == words[|words| - 1];
    LowerKeepsWordShape(words[0]);
    forall k | 0 <= k < |lowered| ensures ' ' !in lowered[k] {
      if k > 0 {
        assert lowered[k] == words[k];
      }
    }
    ParseJoin(lowered);
    ParseJoin(words);
    LowerIdempotent(words[0]);
  }

  /** A bare word with no whitespace at its ends reads as the command it
      names, lower-cased, with no arguments. */
  lemma ParseWord(w: string)
    requires w != "" && ' ' !in w && !IsWhitespace(w[0]) && !IsWhitespace(w[|w| - 1])
    ensures Parse(w) == Some(Parsed(CommandOf(Lower(w)), []))
  {
    TrimUnchanged(w);
    SplitNoSeparator(w, ' ');
    assert [w][1..] == [];
  }

  /** So a bare command word reads the same in any case: `HELP` is `help`,
      `PS` is `ps`. */
  lemma BareCommandWordCaseInsensitive(w: string)
    requires w != "" && ' ' !in w && !IsWhitespace(w[0]) && !IsWhitespace(w[|w| - 1])
    ensures Parse(Lower(w)) == Parse(w)
  {
    LowerKeepsWordShape(w);
    ParseWord(w);
    ParseWord(Lower(w));
    LowerIdempotent(w);
  }

  /** A command word typed in capitals runs that command: `HELP` is `help`. */
  lemma ShoutedHelp()
    ensures Lower("HELP") == "help" && CommandOf(Lower("HELP")) == Help
  {
    var l := Lower("HELP");
    assert l[0] == 'h' && l[1] == 'e' && l[2] == 'l' && l[3] == 'p';
    assert l == "help";
  }

  /** `kill`: without a non-empty id, one usage line and no store call;
      with one, a single KILL_PROCESS for that id and no output line. */
  lemma KillCommand(args: seq<string>, view: StoreView, granted: bool, formatTime: int -> string)
    ensures var r := Execute(Kill, args, view, granted, formatTime);
      if args == [] || args[0] == "" then r == Ran([KillUsage], [])
      else r == Ran([], [Dispatch(KillProcess(args[0]))])
  {
  }

  /** `sudo`: without a non-empty secret, one usage line and no call to
      `elevate`; with one, exactly one call with that secret and exactly one
      line, chosen by its answer. */
  lemma SudoCommand(args: seq<string>, view: StoreView, granted: bool, formatTime: int -> string)
    ensures var r := Execute(Sudo, args, view, granted, formatTime);
      if args == [] || args[0] == "" then r == Ran([SudoUsage], [])
      else r == Ran([if granted then SudoGranted else SudoDenied], [Elevate(args[0])])
  {
  }

  /** `snap take ...` dispatches one TAKE_SNAPSHOT, labelled with the words
      after `take` joined by single spaces, or "manual" when they join to
      nothing; it prints nothing. */
  lemma SnapTakeCommand(args: seq<string>, view: StoreView, granted: bool, formatTime: int -> string)
    requires |args| >= 1 && args[0] == "take"
    ensures var words := args[1..];
      Execute(Snap, args, view, granted, formatTime)
        == Ran([], [Dispatch(TakeSnapshot(if Join(words, ' ') == "" then DefaultLabel else Join(words, ' ')))])
  {
  }

  /** With no words after `take` the label is "manual"; otherwise (words
      that are not all empty) it is those words, which split back out of it. */
  lemma {:induction false} SnapTakeLabel(words: seq<string>)
    requires forall k :: 0 <= k < |words| ==> ' ' !in words[k]
    ensures words == [] || words == [""] ==> SnapLabel(["take"] + words) == DefaultLabel
    ensures words != [] && words != [""] ==>
      SnapLabel(["take"] + words) == Join(words, ' ') && Split(SnapLabel(["take"] + words), ' ') == words
  {
    assert (["take"] + words)[1..] == words;
    JoinEmpty(words, ' ');
    if words != [] && words != [""] {
      SplitJoin(words, ' ');
    }
  }

  /** `snap restore` dispatches one ROLLBACK with the second argument, which
      may be missing, and prints nothing. */
  lemma SnapRestoreCommand(args: seq<string>, view: StoreView, granted: bool, formatTime: int -> string)
    requires |args| >= 1 && args[0] == "restore"
    ensures Execute(Snap, args, view, granted, formatTime)
         == Ran([], [Dispatch(Rollback(if |args| >= 2 then Some(args[1]) else None))])
  {
  }

  /** Any other `snap` lists every snapshot, in order, under a heading, and
      calls nothing. */
  lemma SnapListCommand(args: seq<string>, view: StoreView, granted: bool, formatTime: int -> string)
    requires args == [] || (args[0] != "take" && args[0] != "restore")
    ensures var r := Execute(Snap, args, view, granted, formatTime);
      r.Ran? && r.effects == [] && |r.lines| == 1 + |view.snapshots| && r.lines[0] == "SNAPSHOT_LIST:"
      && forall i :: 0 <= i < |view.snapshots| ==> r.lines[i + 1] == SnapshotRow(view.snapshots[i], formatTime)
  {
  }

  /** `ps` prints a heading and one row per process, in collection order,
      and calls nothing, whatever words follow it. */
  lemma PsCommand(args: seq<string>, view: StoreView, granted: bool, formatTime: int -> string)
    ensures var r := Execute(Ps, args, view, granted, formatTime);
      r.Ran? && r.effects == [] && |r.lines| == 1 + |view.processes| && r.lines[0] == "PROCESS_TREE:"
      && forall i :: 0 <= i < |view.processes| ==> r.lines[i + 1] == ProcessRow(view.processes[i])
  {
  }

  /** A row carries the marker exactly when the process has a (non-empty)
      parent id: it is the parentless row with the marker put in after the
      two leading spaces. An empty parent id counts as none. */
  lemma RowMarkedUnderParent(p: SystemProcess, parent: string)
    ensures var root := ProcessRow(p.(parentId := None));
      ProcessRow(p.(parentId := Some(parent)))
        == if parent == "" then root else root[..2] + ParentMarker + root[2..]
  {
  }

  /** Every `ps` row, marked or not, lines its cells up behind the id padded
      to eight columns. */
  lemma RowStartsWithPaddedId(p: SystemProcess)
    ensures var off := if HasParent(p) then 6 else 2;
      var row := ProcessRow(p);
      |row| >= off + |p.id| && row[off..off + |p.id|] == p.id
  {
    var head := "  " + (if HasParent(p) then ParentMarker else "");
    var pad := PadEnd(p.id, 8);
    var tail := " | " + PadEnd(p.name, 14) + " | "
      + PadEnd(ProcessStateName(p.state), 10) + " | " + PermissionName(p.permission);
    assert ProcessRow(p) == head + pad + tail;
    SliceAfter(head, pad, tail, |p.id|);
  }

  /** A slice just past a prefix is a slice of the middle part. */
  lemma SliceAfter(a: string, b: string, c: string, n: nat)
    requires n <= |b|
    ensures (a + b + c)[|a|..|a| + n] == b[..n]
  {
  }

  /** `nodes` calls nothing, whatever words follow it, and its ACTIVE_NODES
      figure, read back as a decimal number, is the number of RUNNING
      processes. */
  lemma NodesCountsRunning(args: seq<string>, view: StoreView, granted: bool, formatTime: int -> string)
    ensures var r := Execute(Nodes, args, view, granted, formatTime);
      r.Ran? && r.effects == [] && |r.lines| == 3
      && r.lines[1][..|ActiveNodesPrefix|] == ActiveNodesPrefix
      && var digits := r.lines[1][|ActiveNodesPrefix|..];
         (forall i :: 0 <= i < |digits| ==> IsDigit(digits[i]))
         && DigitsValue(digits) == CountRunning(view.processes)
         && DigitsValue(digits) == multiset(States(view.processes))[RUNNING]
  {
    CountRunningCounts(view.processes);
    var n := CountRunning(view.processes);
    var line := ActiveNodesPrefix + NatToString(n);
    assert line[|ActiveNodesPrefix|..] == NatToString(n);
    NatToStringValue(n);
  }

  /** `apk` prints the build banner and emits exactly one BUILD_REQUEST
      event from SHELL for the android platform; it dispatches nothing. */
  lemma ApkCommand(args: seq<string>, view: StoreView, granted: bool, formatTime: int -> string)
    ensures Execute(Apk, args, view, granted, formatTime)
         == Ran(ApkLines, [Emit("BUILD_REQUEST", "SHELL", PlatformPayload("android"))])
  {
  }

  /** `ghost` toggles ghost mode exactly once, then prints one line. */
  lemma GhostCommand(args: seq<string>, view: StoreView, granted: bool, formatTime: int -> string)
    ensures Execute(Ghost, args, view, granted, formatTime) == Ran([GhostLine], [ToggleGhost])
  {
  }

  /** A word that is not a command prints one not-found line naming it and
      does nothing else. */
  lemma UnknownCommand(word: string, args: seq<string>, view: StoreView, granted: bool,
                       formatTime: int -> string)
    requires word !in Commands
    ensures Execute(CommandOf(word), args, view, granted, formatTime) == Ran([NotFound(word)], [])
  {
  }

  /** Only `clear` wipes the history. */
  lemma OnlyClearClears(word: string, args: seq<string>, view: StoreView, granted: bool,
                        formatTime: int -> string)
    ensures Execute(CommandOf(word), args, view, granted, formatTime) == Cleared <==> word == "clear"
  {
  }

  /** A line makes at most one call into the store, and only `apk`, `ghost`,
      `kill`, `sudo` and `snap` make one: a dispatch only from `kill` and
      `snap`, an event only from `apk`, an elevation only from `sudo`. */
  lemma AtMostOneStoreCall(word: string, args: seq<string>, view: StoreView, granted: bool,
                           formatTime: int -> string)
    ensures var r := Execute(CommandOf(word), args, view, granted, formatTime);
      r.Ran? ==> (|r.effects| <= 1
        && (r.effects != [] ==>
              ((r.effects[0].Dispatch? ==> word == "kill" || word == "snap")
            && (r.effects[0].Emit? ==> word == "apk")
            && (r.effects[0].Elevate? ==> word == "sudo")
            && (r.effects[0].ToggleGhost? ==> word == "ghost"))))
  {
  }

  /** A blank submitted line is ignored. */
  lemma SubmitBlank(input: string, view: StoreView, granted: bool, formatTime: int -> string)
    requires Trim(input) == ""
    ensures Interpret(input, view, granted, formatTime) == Ignored
  {
    assert Parse(input).None?;
  }

  /** Any other line runs the command its first word names, on the other
      words, and that is never the ignored reply. */
  lemma SubmitLine(input: string, c: Command, args: seq<string>, view: StoreView, granted: bool,
                   formatTime: int -> string)
    requires Trim(input) != ""
    requires c == CommandOf(Lower(Split(Trim(input), ' ')[0])) && args == Split(Trim(input), ' ')[1..]
    ensures Interpret(input, view, granted, formatTime) == Execute(c, args, view, granted, formatTime)
    ensures Execute(c, args, view, granted, formatTime).Cleared? || Execute(c, args, view, granted, formatTime).Ran?
  {
    assert Parse(input) == Some(Parsed(c, args));
    ExecuteNeverIgnored(c, args, view, granted, formatTime);
  }

  /** The terminal panel: the text being typed, the output history, and the
      calls it has made into the store, oldest first. */
  class Terminal {
    var input: string
    var history: seq<string>
    var effects: seq<Effect>

    constructor ()
      ensures input == "" && history == Banner && effects == []
    {
      input := "";
      history := Banner;
      effects := [];
    }

    /** The input box's change handler. */
    method SetInput(text: string)
      modifies this`input
      ensures input == text
    {
      input := text;
    }

    /** Appends lines to the history, in order. */
    method AddLog(lines: seq<string>)
      modifies this`history
      ensures history == old(history) + lines
    {
      history := history + lines;
    }

    /** Makes one call into the store, recorded in order. */
    method Call(e: Effect)
      modifies this`effects
      ensures effects == old(effects) + [e]
    {
      effects := effects + [e];
    }

    /** Submits the input line. A blank line changes nothing. Otherwise the
        echo of the trimmed line goes first, then the command's lines, and
        the input box is emptied; `clear` instead leaves no history at all. */
    method HandleCommand(view: StoreView, granted: bool, formatTime: int -> string)
      modifies this
      ensures Interpret(old(input), view, granted, formatTime).Ignored? ==>
        input == old(input) && history == old(history) && effects == old(effects)
      ensures Interpret(old(input), view, granted, formatTime).Cleared? ==>
        input == "" && history == [] && effects == old(effects)
      ensures Interpret(old(input), view, granted, formatTime).Ran? ==>
        var reply := Interpret(old(input), view, granted, formatTime);
        input == "" && history == old(history) + [Echo(Trim(old(input)))] + reply.lines
        && effects == old(effects) + reply.effects
    {
      var raw := Trim(input);
      if raw == "" {
        SubmitBlank(input, view, granted, formatTime);
        return;
      }
      var parts := Split(raw, ' ');
      var c := CommandOf(Lower(parts[0]));
      var args := parts[1..];
      SubmitLine(input, c, args, view, granted, formatTime);
      Submit(raw, c, args, view, granted, formatTime);
    }

    /** A non-blank line: the echo, then the command, then the input box
        is emptied. */
    method Submit(raw: string, c: Command, args: seq<string>, view: StoreView, granted: bool,
                  formatTime: int -> string)
      modifies this
      ensures Execute(c, args, view, granted, formatTime).Cleared? ==>
        input == "" && history == [] && effects == old(effects)
      ensures Execute(c, args, view, granted, formatTime).Ran? ==>
        var reply := Execute(c, args, view, granted, formatTime);
        input == "" && history == old(history) + [Echo(raw)] + reply.lines
        && effects == old(effects) + reply.effects
    {
      history := history + [Echo(raw)];
      RunCommand(c, args, view, granted, formatTime);
      input := "";
    }

    /** The switch: the command's output lines and store calls, in the
        order the handler makes them. */
    method RunCommand(c: Command, args: seq<string>, view: StoreView, granted: bool,
                      formatTime: int -> string)
      modifies this`history, this`effects
      ensures Execute(c, args, view, granted, formatTime).Cleared? ==>
        history == [] && effects == old(effects)
      ensures Execute(c, args, view, granted, formatTime).Ran? ==>
        var reply := Execute(c, args, view, granted, formatTime);
        history == old(history) + reply.lines && effects == old(effects) + reply.effects
    {
      match c {
        case Help =>
          AddLog(HelpLines);
        case Apk =>
          AddLog(ApkLines);
          Call(Emit("BUILD_REQUEST", "SHELL", PlatformPayload("android")));
        case Ps =>
          AddLog(["PROCESS_TREE:"] + ProcessRows(view.processes));
        case Nodes =>
          AddLog(NodesLines(view));
        case Ghost =>
          Call(ToggleGhost);
          AddLog([GhostLine]);
        case Kill =>
          if !Given(Arg(args, 0)) {
            AddLog([KillUsage]);
          } else {
            Call(Dispatch(KillProcess(args[0])));
          }
        case Sudo =>
          if !Given(Arg(args, 0)) {
            AddLog([SudoUsage]);
          } else {
            Call(Elevate(args[0]));
            var success := granted;
            AddLog([if success then SudoGranted else SudoDenied]);
          }
        case Snap =>
          if Arg(args, 0) == Some("take") {
            Call(Dispatch(TakeSnapshot(SnapLabel(args))));
          } else if Arg(args, 0) == Some("restore") {
            Call(Dispatch(Rollback(Arg(args, 1))));
          } else {
            AddLog(["SNAPSHOT_LIST:"] + SnapshotRows(view.snapshots, formatTime));
          }
        case Clear =>
          history := [];
        case Unknown(word) =>
          AddLog([NotFound(word)]);
      }
    }
  }
}
