/** The shared vocabulary of the simulated OS: process states, permission
    levels, event severities, and the process, event, file-entry, snapshot
    and session-state records. Numbers the source keeps as JavaScript
    numbers are whole numbers here; timestamps are milliseconds. */
module Types {

  datatype Option<T> = None | Some(value: T)

  /** The five states a simulated process can be in. */
  datatype ProcessState = RUNNING | SLEEPING | WAITING | FAILED | DEGRADED

  /** The three elevation levels, used for a process and for the session. */
  datatype PermissionLevel = USER | DAEMON | SYSTEM

  /** The five event severities, from least to most severe. */
  datatype Severity = Info | Low | Medium | High | Critical

  /** The string value of each state (the enum's values equal its names). */
  function ProcessStateName(s: ProcessState): string {
    match s
    case RUNNING => "RUNNING"
    case SLEEPING => "SLEEPING"
    case WAITING => "WAITING"
    case FAILED => "FAILED"
    case DEGRADED => "DEGRADED"
  }

  /** Reads a state back from its string value; any other string is none. */
  function ParseProcessState(t: string): (r: Option<ProcessState>)
    ensures r.Some? ==> ProcessStateName(r.value) == t
    ensures r.None? ==> forall s :: ProcessStateName(s) != t
  {
    if t == "RUNNING" then Some(RUNNING)
    else if t == "SLEEPING" then Some(SLEEPING)
    else if t == "WAITING" then Some(WAITING)
    else if t == "FAILED" then Some(FAILED)
    else if t == "DEGRADED" then Some(DEGRADED)
    else None
  }

  /** Every state has its own string value, and that value reads back to it:
      the state is exactly one of the five. */
  lemma ProcessStateRoundTrip(s: ProcessState)
    ensures ParseProcessState(ProcessStateName(s)) == Some(s)
  {
  }

  function PermissionName(p: PermissionLevel): string {
    match p
    case USER => "USER"
    case DAEMON => "DAEMON"
    case SYSTEM => "SYSTEM"
  }

  function ParsePermission(t: string): (r: Option<PermissionLevel>)
    ensures r.Some? ==> PermissionName(r.value) == t
    ensures r.None? ==> forall p :: PermissionName(p) != t
  {
    if t == "USER" then Some(USER)
    else if t == "DAEMON" then Some(DAEMON)
    else if t == "SYSTEM" then Some(SYSTEM)
    else None
  }

  lemma PermissionRoundTrip(p: PermissionLevel)
    ensures ParsePermission(PermissionName(p)) == Some(p)
  {
  }

  /** The severity's literal as the event record spells it. */
  function SeverityName(s: Severity): string {
    match s
    case Info => "info"
    case Low => "low"
    case Medium => "medium"
    case High => "high"
    case Critical => "critical"
  }

  function ParseSeverity(t: string): (r: Option<Severity>)
    ensures r.Some? ==> SeverityName(r.value) == t
    ensures r.None? ==> forall s :: SeverityName(s) != t
  {
    if t == "info" then Some(Info)
    else if t == "low" then Some(Low)
    else if t == "medium" then Some(Medium)
    else if t == "high" then Some(High)
    else if t == "critical" then Some(Critical)
    else None
  }

  lemma SeverityRoundTrip(s: Severity)
    ensures ParseSeverity(SeverityName(s)) == Some(s)
  {
  }

  /** A simulated process. `parentId` is optional: a root process has none. */
  datatype SystemProcess = SystemProcess(
    id: string,
    parentId: Option<string>,
    name: string,
    state: ProcessState,
    weight: int,
    memory: int,
    lastUpdate: int,
    permission: PermissionLevel)

  /** The documented ranges: CPU weight and memory are within 0..100. */
  predicate ValidProcess(p: SystemProcess) {
    0 <= p.weight <= 100 && 0 <= p.memory <= 100
  }

  /** Event payloads: the build request's platform, or anything else. */
  datatype Payload = PlatformPayload(platform: string) | OpaquePayload

  datatype SystemEvent = SystemEvent(
    id: string,
    timestamp: int,
    eventType: string,
    source: string,
    payload: Payload,
    severity: Severity)

  /** One version of the content stored under a directory path. */
  datatype FileEntry = FileEntry(path: string, content: string, version: int, timestamp: int)

  /** Directory path to its entries, in the order they were appended. */
  type FileSystem = map<string, seq<FileEntry>>

  /** A labelled copy of the process list and the file system, with the
      same shapes as the live state's fields. */
  datatype StateSnapshot = StateSnapshot(
    id: string,
    labelText: string,
    timestamp: int,
    processes: seq<SystemProcess>,
    fileSystem: FileSystem)

  predicate ValidProcesses(ps: seq<SystemProcess>) {
    forall i :: 0 <= i < |ps| ==> ValidProcess(ps[i])
  }

  predicate ValidSnapshot(s: StateSnapshot) {
    ValidProcesses(s.processes)
  }

  /** The session state the store owns. */
  datatype SystemState = SystemState(
    booted: bool,
    shadowMode: bool,
    ghostMode: bool,
    processes: seq<SystemProcess>,
    events: seq<SystemEvent>,
    fileSystem: FileSystem,
    notifications: seq<string>,
    snapshots: seq<StateSnapshot>,
    integrityScore: int,
    permissionContext: PermissionLevel)

  /** Every live and every saved process keeps its metrics in range. */
  predicate ValidState(s: SystemState) {
    ValidProcesses(s.processes) &&
    forall k :: 0 <= k < |s.snapshots| ==> ValidSnapshot(s.snapshots[k])
  }

  /** A snapshot's process list and file system have the live fields' own
      types: put in their place, they leave a valid state valid. */
  lemma SnapshotShapesMatchState(s: SystemState, k: nat)
    requires ValidState(s) && k < |s.snapshots|
    ensures ValidState(s.(processes := s.snapshots[k].processes,
                          fileSystem := s.snapshots[k].fileSystem))
  {
    assert ValidSnapshot(s.snapshots[k]);
  }
}
