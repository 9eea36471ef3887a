/**
 * The container lifecycle watcher (watcher/container.go): which containers
 * are workload containers, how a lifecycle record is built from Docker's
 * inspection of a container, the start/die audit files, and the
 * deduplication and start/die correlation state that every event updates.
 *
 * Docker's inspection result is an input of each step (`None` when the
 * inspect call fails); the goroutine that handles one event is one
 * sequential step. Times are integer milliseconds.
 */
module Watcher {
  import opened Wrappers
  import opened Strings
  import Csv

  // ---------------------------------------------------------------------
  // Data
  // ---------------------------------------------------------------------

  /** The fields of Docker's ContainerInspect result that the core reads. */
  datatype ContainerInfo = ContainerInfo(
    id: string,
    name: string,         // Docker reports names with a leading '/'
    pid: int,             // State.Pid
    startedAt: int,       // State.StartedAt
    finishedAt: int,      // State.FinishedAt
    workingDir: string)   // Config.WorkingDir

  /** A lifecycle record (NextflowContainer in the source). */
  datatype NextflowContainer = NextflowContainer(
    startTime: int,
    dieTime: int,
    name: string,
    lifeTime: int,
    pid: int,
    containerID: string,
    workDir: string)

  // ---------------------------------------------------------------------
  // Workload-name predicate: the regular expression ^/nxf-[a-zA-Z0-9-]+$
  // ---------------------------------------------------------------------

  const WorkloadPrefix: string := "/nxf-"

  predicate IsNameChar(c: char) {
    ('a' <= c <= 'z') || ('A' <= c <= 'Z') || ('0' <= c <= '9') || c == '-'
  }

  /** The language of `^/nxf-[a-zA-Z0-9-]+$`: the prefix, then one or more name characters. */
  predicate IsWorkloadName(name: string) {
    |name| > |WorkloadPrefix| && HasPrefix(name, WorkloadPrefix) &&
    forall i :: |WorkloadPrefix| <= i < |name| ==> IsNameChar(name[i])
  }

  /** The guard of the inspection goroutine: a non-empty name that matches the pattern. */
  predicate IsTracked(name: string) {
    |name| > 0 && IsWorkloadName(name)
  }

  /**
   * A tracked name is exactly "/" followed by "nxf-" and name characters, so
   * trimming the leading '/' leaves a string without any '/' and the
   * trimmed name can be restored by putting the '/' back.
   */
  lemma WorkloadNameShape(name: string)
    requires IsTracked(name)
    ensures HasPrefix(name, "/")
    ensures "/" + TrimPrefix(name, "/") == name
    ensures HasPrefix(TrimPrefix(name, "/"), "nxf-")
    ensures forall i :: 0 <= i < |TrimPrefix(name, "/")| ==> TrimPrefix(name, "/")[i] != '/'
  {
    assert name[..1] == name[..|WorkloadPrefix|][..1];
    var t := TrimPrefix(name, "/");
    assert t == name[1..];
    assert t[..4] == name[1..5];
    forall i | 0 <= i < |t| ensures t[i] != '/' {
      assert t[i] == name[i + 1];
      if i + 1 >= |WorkloadPrefix| {
        assert IsNameChar(name[i + 1]);
      } else {
        assert name[i + 1] == WorkloadPrefix[i + 1];
      }
    }
  }

  // ---------------------------------------------------------------------
  // Lifecycle record construction and name escaping
  // ---------------------------------------------------------------------

  /** Lifetime of a record: die time minus start time. */
  function LifeTime(startTime: int, dieTime: int): int {
    dieTime - startTime
  }

  /**
   * createNextflowContainer: times come from the inspection, the name loses
   * one leading '/', ID and working directory are copied, and the PID is the
   * one the caller passes in.
   */
  function CreateNextflowContainer(info: ContainerInfo, pid: int): (r: NextflowContainer)
    ensures r.pid == pid && r.containerID == info.id && r.workDir == info.workingDir
    ensures r.startTime == info.startedAt && r.dieTime == info.finishedAt
    ensures r.startTime + r.lifeTime == r.dieTime
    ensures HasPrefix(info.name, "/") ==> "/" + r.name == info.name
    ensures !HasPrefix(info.name, "/") ==> r.name == info.name
  {
    NextflowContainer(
      startTime := info.startedAt,
      dieTime := info.finishedAt,
      name := TrimPrefix(info.name, "/"),
      lifeTime := LifeTime(info.startedAt, info.finishedAt),
      pid := pid,
      containerID := info.id,
      workDir := info.workingDir)
  }

  /** ReplaceAll(s, "/", `\/`). */
  function EscapeSlashes(s: string): (r: string)
    ensures |r| > 0 ==> r[0] != '/'
    ensures |r| >= |s|
  {
    if s == [] then []
    else (if s[0] == '/' then "\\/" else [s[0]]) + EscapeSlashes(s[1..])
  }

  /** Turns every `\/` back into `/`, scanning left to right. */
  function UnescapeSlashes(s: string): string {
    if s == [] then []
    else if |s| >= 2 && s[0] == '\\' && s[1] == '/' then "/" + UnescapeSlashes(s[2..])
    else [s[0]] + UnescapeSlashes(s[1..])
  }

  /** Escaping slashes loses nothing: unescaping gives back the input. */
  lemma {:induction false} UnescapeEscape(s: string)
    ensures UnescapeSlashes(EscapeSlashes(s)) == s
  {
    if s != [] {
      UnescapeEscape(s[1..]);
      var rest := EscapeSlashes(s[1..]);
      if s[0] == '/' {
        assert EscapeSlashes(s) == "\\/" + rest;
        assert EscapeSlashes(s)[2..] == rest;
      } else {
        assert EscapeSlashes(s) == [s[0]] + rest;
        assert EscapeSlashes(s)[1..] == rest;
      }
      assert s == [s[0]] + s[1..];
    }
  }

  /** Every '/' that escaping leaves in its output is preceded by a backslash. */
  lemma {:induction false} EscapedSlashesArePreceded(s: string, i: nat)
    requires i < |EscapeSlashes(s)| && EscapeSlashes(s)[i] == '/'
    ensures i > 0 && EscapeSlashes(s)[i - 1] == '\\'
  {
    var head: string := if s[0] == '/' then "\\/" else [s[0]];
    var rest := EscapeSlashes(s[1..]);
    assert EscapeSlashes(s) == head + rest;
    if i >= |head| {
      assert rest[i - |head|] == '/';
      EscapedSlashesArePreceded(s[1..], i - |head|);
    }
  }

  const CleanedNamePrefix: string := "Cleaned Container Name for Query: "

  /**
   * EscapeContainerName: the fixed prefix, then the name with one leading
   * '/' removed and every remaining '/' escaped; the trimmed name can be
   * recovered from what follows the prefix.
   */
  function EscapeContainerName(name: string): (r: string)
    ensures HasPrefix(r, CleanedNamePrefix)
    ensures UnescapeSlashes(r[|CleanedNamePrefix|..]) == TrimPrefix(name, "/")
    ensures forall i :: |CleanedNamePrefix| <= i < |r| && r[i] == '/' ==> r[i - 1] == '\\'
  {
    var body := EscapeSlashes(TrimPrefix(name, "/"));
    UnescapeEscape(TrimPrefix(name, "/"));
    EscapedSlashesAllPreceded(TrimPrefix(name, "/"));
    PrecededAfterPrefix(CleanedNamePrefix, body);
    CleanedNamePrefix + body
  }

  /** Putting text in front keeps every '/' of `body` preceded by a backslash. */
  lemma PrecededAfterPrefix(p: string, body: string)
    requires forall i :: 0 <= i < |body| && body[i] == '/' ==> i > 0 && body[i - 1] == '\\'
    ensures (p + body)[|p|..] == body
    ensures forall i :: |p| <= i < |p + body| && (p + body)[i] == '/' ==> (p + body)[i - 1] == '\\'
  {
    var r := p + body;
    forall i | |p| <= i < |r| && r[i] == '/' ensures r[i - 1] == '\\' {
      assert r[i] == body[i - |p|];
      assert r[i - 1] == body[i - |p| - 1];
    }
  }

  /** Every '/' of an escaped string, at any position, follows a backslash. */
  lemma EscapedSlashesAllPreceded(s: string)
    ensures forall i :: 0 <= i < |EscapeSlashes(s)| && EscapeSlashes(s)[i] == '/' ==>
              i > 0 && EscapeSlashes(s)[i - 1] == '\\'
  {
    forall i | 0 <= i < |EscapeSlashes(s)| && EscapeSlashes(s)[i] == '/'
      ensures i > 0 && EscapeSlashes(s)[i - 1] == '\\'
    {
      EscapedSlashesArePreceded(s, i);
    }
  }

  /** A workload name needs no escaping: the escaped form is the prefix plus the trimmed name. */
  lemma {:induction false} WorkloadNameEscapesToItself(name: string)
    requires IsTracked(name)
    ensures EscapeContainerName(name) == CleanedNamePrefix + name[1..]
  {
    WorkloadNameShape(name);
    NoSlashEscapesToItself(TrimPrefix(name, "/"));
  }

  lemma {:induction false} NoSlashEscapesToItself(s: string)
    requires forall i :: 0 <= i < |s| ==> s[i] != '/'
    ensures EscapeSlashes(s) == s
  {
    if s != [] {
      NoSlashEscapesToItself(s[1..]);
      assert s == [s[0]] + s[1..];
    }
  }

  // ---------------------------------------------------------------------
  // Audit files
  // ---------------------------------------------------------------------

  /** prepareOutputFile's path: directory, '/', file name. */
  function PrepareOutputFile(path: string, fileName: string): (r: string)
    ensures HasPrefix(r, path + "/") && r[|path| + 1..] == fileName
  {
    assert (path + "/" + fileName)[..|path| + 1] == path + "/";
    path + "/" + fileName
  }

  const ResultsDir: string := "results"
  const StartedAuditPath: string := PrepareOutputFile(ResultsDir, "started_nextflow_containers.csv")
  const DiedAuditPath: string := PrepareOutputFile(ResultsDir, "died_nextflow_containers.csv")

  /** The two audit files by path: their rows live at different files under `results`. */
  function AuditFiles(s: WatcherState): (m: map<string, Csv.File>)
    ensures m.Keys == {StartedAuditPath, DiedAuditPath} && StartedAuditPath != DiedAuditPath
    ensures m[StartedAuditPath] == s.startedAudit && m[DiedAuditPath] == s.diedAudit
  {
    assert StartedAuditPath[8] == 's' && DiedAuditPath[8] == 'd';
    map[StartedAuditPath := s.startedAudit, DiedAuditPath := s.diedAudit]
  }

  const StartedHeader: Csv.Row := ["Name", "PID", "ContainerID", "WorkDir"]
  const DiedHeader: Csv.Row := ["Name", "PID", "ContainerID", "WorkDir", "LifeTime"]

  /** A started-audit row: as wide as its header, and the PID cell reads back as the PID. */
  function StartedRow(c: NextflowContainer): (r: Csv.Row)
    ensures |r| == |StartedHeader| == 4
    ensures r[0] == c.name && r[2] == c.containerID && r[3] == c.workDir
    ensures ParseDecimal(r[1]) == Some(c.pid)
  {
    DecimalRoundTrip(c.pid);
    [c.name, IntToDecimal(c.pid), c.containerID, c.workDir]
  }

  /** A died-audit row: the started row plus the lifetime, as wide as its header. */
  function DiedRow(c: NextflowContainer): (r: Csv.Row)
    ensures |r| == |DiedHeader| == 5
    ensures r[..4] == StartedRow(c)
    ensures ParseDecimal(r[4]) == Some(c.lifeTime)
  {
    DecimalRoundTrip(c.lifeTime);
    StartedRow(c) + [IntToDecimal(c.lifeTime)]
  }

  // ---------------------------------------------------------------------
  // Deduplication and correlation state
  // ---------------------------------------------------------------------

  /**
   * The watcher's long-lived state: the two processed-id sets, the
   * id -> PID table, the records sent to the output channel, and the two
   * audit files.
   */
  datatype WatcherState = WatcherState(
    processedStarts: set<string>,
    processedDies: set<string>,
    containerPIDs: map<string, int>,
    emitted: seq<NextflowContainer>,
    startedAudit: Csv.File,
    diedAudit: Csv.File)

  const Init: WatcherState := WatcherState({}, {}, map[], [], [], [])

  /** A Go map read: the zero value for a missing key. */
  function PidOf(pids: map<string, int>, id: string): int {
    if id in pids then pids[id] else 0
  }

  /** Whether `id` was already handled in the set for its kind of event. */
  predicate Seen(s: WatcherState, id: string, isStart: bool) {
    if isStart then id in s.processedStarts else id in s.processedDies
  }

  /** The event is new for its kind and its inspection names a tracked workload. */
  predicate FirstTracked(s: WatcherState, id: string, isStart: bool, info: Option<ContainerInfo>) {
    !Seen(s, id, isStart) && info.Some? && IsTracked(info.value.name)
  }

  /** The event is a tracked first die of an id whose start recorded a non-zero PID. */
  predicate Emits(s: WatcherState, id: string, isStart: bool, info: Option<ContainerInfo>) {
    !isStart && FirstTracked(s, id, isStart, info) && PidOf(s.containerPIDs, id) != 0
  }

  /**
   * processContainerEvent followed by its goroutine, as one step. `info` is
   * the result of inspecting the container (`None` when the call failed).
   */
  function Process(s: WatcherState, id: string, isStart: bool, info: Option<ContainerInfo>): (r: WatcherState)
    // an id already seen for this kind of event changes nothing
    ensures Seen(s, id, isStart) ==> r == s
    // otherwise the id is marked, in its own set only
    ensures !Seen(s, id, isStart) ==>
      r.processedStarts == (if isStart then s.processedStarts + {id} else s.processedStarts) &&
      r.processedDies == (if isStart then s.processedDies else s.processedDies + {id})
    // only a tracked start changes the PID table, and only at `id`
    ensures r.containerPIDs == (if !Seen(s, id, isStart) && isStart && info.Some? && IsTracked(info.value.name)
                                then s.containerPIDs[id := info.value.pid] else s.containerPIDs)
    // a tracked first start appends its row to the started audit file, and nothing else does
    ensures r.startedAudit == (if isStart && FirstTracked(s, id, isStart, info)
                               then Csv.AppendRow(s.startedAudit, StartedHeader,
                                                  StartedRow(CreateNextflowContainer(info.value, info.value.pid)))
                               else s.startedAudit)
    // a tracked first die with a recorded PID emits exactly one record, carrying that PID,
    // and appends its row to the died audit file; every other event emits nothing
    ensures r.emitted == (if Emits(s, id, isStart, info)
                          then s.emitted + [CreateNextflowContainer(info.value, PidOf(s.containerPIDs, id))]
                          else s.emitted)
    ensures r.diedAudit == (if Emits(s, id, isStart, info)
                            then Csv.AppendRow(s.diedAudit, DiedHeader,
                                               DiedRow(CreateNextflowContainer(info.value, PidOf(s.containerPIDs, id))))
                            else s.diedAudit)
  {
    if Seen(s, id, isStart) then s
    else
      var marked := if isStart then s.(processedStarts := s.processedStarts + {id})
                     else s.(processedDies := s.processedDies + {id});
      match info
      case None => marked
      case Some(ci) =>
        if !IsTracked(ci.name) then marked
        else if isStart then
          var record := CreateNextflowContainer(ci, ci.pid);
          marked.(containerPIDs := marked.containerPIDs[id := ci.pid],
                  startedAudit := Csv.AppendRow(marked.startedAudit, StartedHeader, StartedRow(record)))
        else
          var pid := PidOf(marked.containerPIDs, id);
          if pid == 0 then marked
          else
            var record := CreateNextflowContainer(ci, pid);
            marked.(emitted := marked.emitted + [record],
                    diedAudit := Csv.AppendRow(marked.diedAudit, DiedHeader, DiedRow(record)))
  }

  /** A container event together with the inspection that its goroutine obtains. */
  datatype Event = Event(id: string, isStart: bool, info: Option<ContainerInfo>)

  /** The state after handling `evs` in order. */
  function Run(s: WatcherState, evs: seq<Event>): WatcherState {
    if evs == [] then s
    else
      var e := evs[|evs| - 1];
      Process(Run(s, evs[..|evs| - 1]), e.id, e.isStart, e.info)
  }

  /** A second start (or die) for the same id is a no-op, whatever its inspection says. */
  lemma RepeatIsNoOp(s: WatcherState, id: string, isStart: bool, first: Option<ContainerInfo>, second: Option<ContainerInfo>)
    ensures Process(Process(s, id, isStart, first), id, isStart, second) == Process(s, id, isStart, first)
  {
  }

  /** Starts and dies are deduplicated apart: handling a start never marks the die. */
  lemma StartDoesNotSuppressDie(s: WatcherState, id: string, info: Option<ContainerInfo>)
    requires id !in s.processedDies
    ensures !Seen(Process(s, id, true, info), id, false)
  {
  }

  predicate HasStart(evs: seq<Event>, id: string) {
    exists i :: 0 <= i < |evs| && evs[i].id == id && evs[i].isStart
  }

  predicate HasDie(evs: seq<Event>, id: string) {
    exists i :: 0 <= i < |evs| && evs[i].id == id && !evs[i].isStart
  }

  /** From the initial state, an id is marked died exactly when a die event for it was seen. */
  lemma {:induction false} RunRecordsDies(evs: seq<Event>, id: string)
    ensures id in Run(Init, evs).processedDies <==> HasDie(evs, id)
  {
    if evs != [] {
      var prefix := evs[..|evs| - 1];
      var e := evs[|evs| - 1];
      RunRecordsDies(prefix, id);
      if HasDie(prefix, id) {
        var i :| 0 <= i < |prefix| && prefix[i].id == id && !prefix[i].isStart;
        assert evs[i] == prefix[i];
      }
      if e.id == id && !e.isStart {
        assert evs[|evs| - 1].id == id;
      } else if HasDie(evs, id) {
        var i :| 0 <= i < |evs| && evs[i].id == id && !evs[i].isStart;
        assert i < |prefix| && prefix[i] == evs[i];
      }
    }
  }

  /**
   * The PID that the first start event for `id` records: its inspected PID
   * when the inspection succeeded and the name is tracked, else nothing.
   */
  function StartPid(evs: seq<Event>, id: string): Option<int> {
    if evs == [] then None
    else
      var prefix := evs[..|evs| - 1];
      var e := evs[|evs| - 1];
      if HasStart(prefix, id) then StartPid(prefix, id)
      else if e.id == id && e.isStart && e.info.Some? && IsTracked(e.info.value.name) then Some(e.info.value.pid)
      else None
  }

  /**
   * From the initial state, an id is marked started exactly when a start
   * event for it was seen, and the PID table holds for it exactly the PID
   * of its first start event, if that one was tracked.
   */
  lemma {:induction false} RunRecordsFirstStartPid(evs: seq<Event>, id: string)
    ensures id in Run(Init, evs).processedStarts <==> HasStart(evs, id)
    ensures id in Run(Init, evs).containerPIDs <==> StartPid(evs, id).Some?
    ensures id in Run(Init, evs).containerPIDs ==> Run(Init, evs).containerPIDs[id] == StartPid(evs, id).value
  {
    RunRecordsStarts(evs, id);
    if evs != [] {
      var prefix := evs[..|evs| - 1];
      RunRecordsFirstStartPid(prefix, id);
    }
  }

  /** From the initial state, an id is marked started exactly when a start event for it was seen. */
  lemma {:induction false} RunRecordsStarts(evs: seq<Event>, id: string)
    ensures id in Run(Init, evs).processedStarts <==> HasStart(evs, id)
  {
    if evs != [] {
      var prefix := evs[..|evs| - 1];
      var e := evs[|evs| - 1];
      RunRecordsStarts(prefix, id);
      if HasStart(prefix, id) {
        var i :| 0 <= i < |prefix| && prefix[i].id == id && prefix[i].isStart;
        assert evs[i] == prefix[i];
      }
      if e.id == id && e.isStart {
        assert evs[|evs| - 1].id == id;
      } else if HasStart(evs, id) {
        var i :| 0 <= i < |evs| && evs[i].id == id && evs[i].isStart;
        assert i < |prefix| && prefix[i] == evs[i];
      }
    }
  }

  /**
   * The central correlation property: when a die event produces a record,
   * its PID is the one inspected at the container's first start event (not
   * the one inspected at die), and a die for an id whose start recorded
   * no PID never produces a record. Conversely, the first die of a tracked
   * container whose first start recorded a non-zero PID does produce that
   * record.
   */
  lemma DieCarriesStartPid(evs: seq<Event>, id: string, info: Option<ContainerInfo>)
    ensures var before := Run(Init, evs);
            var after := Process(before, id, false, info);
            |after.emitted| > |before.emitted| ==>
              StartPid(evs, id).Some? && StartPid(evs, id).value != 0 &&
              after.emitted == before.emitted + [CreateNextflowContainer(info.value, StartPid(evs, id).value)] &&
              after.emitted[|before.emitted|].pid == StartPid(evs, id).value
    ensures StartPid(evs, id).None? ==> Process(Run(Init, evs), id, false, info).emitted == Run(Init, evs).emitted
    ensures info.Some? && IsTracked(info.value.name) && !HasDie(evs, id) &&
            StartPid(evs, id).Some? && StartPid(evs, id).value != 0 ==>
              Process(Run(Init, evs), id, false, info).emitted ==
                Run(Init, evs).emitted + [CreateNextflowContainer(info.value, StartPid(evs, id).value)]
  {
    RunRecordsFirstStartPid(evs, id);
    RunRecordsDies(evs, id);
  }

  /**
   * Each emitted record and each data row of an audit file stands for a
   * distinct id: at most one record per died id and one started row per
   * started id (the audit files also hold their header).
   */
  lemma {:induction false} EmissionsBoundedByIds(evs: seq<Event>)
    ensures |Run(Init, evs).emitted| <= |Run(Init, evs).processedDies|
    ensures |Run(Init, evs).diedAudit| <= |Run(Init, evs).processedDies| + 1
    ensures |Run(Init, evs).startedAudit| <= |Run(Init, evs).processedStarts| + 1
    ensures Run(Init, evs).processedDies == {} ==> Run(Init, evs).diedAudit == []
    ensures Run(Init, evs).processedStarts == {} ==> Run(Init, evs).startedAudit == []
  {
    if evs != [] {
      var prefix := evs[..|evs| - 1];
      var e := evs[|evs| - 1];
      EmissionsBoundedByIds(prefix);
      var s := Run(Init, prefix);
      if !Seen(s, e.id, e.isStart) {
        if e.isStart {
          assert |s.processedStarts + {e.id}| == |s.processedStarts| + 1;
        } else {
          assert |s.processedDies + {e.id}| == |s.processedDies| + 1;
        }
      }
    }
  }

  // ---------------------------------------------------------------------
  // The watcher object
  // ---------------------------------------------------------------------

  /** The state GetContainerEvents keeps for the lifetime of the watcher. */
  class EventWatcher {
    var processedStarts: set<string>
    var processedDies: set<string>
    var containerPIDs: map<string, int>
    var emitted: seq<NextflowContainer>    // what was sent on containerEventChannel
    var startedAudit: Csv.File             // results/started_nextflow_containers.csv
    var diedAudit: Csv.File                // results/died_nextflow_containers.csv

    function State(): WatcherState
      reads this
    {
      WatcherState(processedStarts, processedDies, containerPIDs, emitted, startedAudit, diedAudit)
    }

    constructor ()
      ensures State() == Init
    {
      processedStarts, processedDies, containerPIDs := {}, {}, map[];
      emitted, startedAudit, diedAudit := [], [], [];
    }

    /** processContainerEvent and the goroutine it starts, run to completion. */
    method ProcessContainerEvent(id: string, isStartEvent: bool, info: Option<ContainerInfo>)
      modifies this
      ensures State() == Process(old(State()), id, isStartEvent, info)
    {
      // check-and-mark under the mutex
      if isStartEvent {
        if id in processedStarts { return; }
        processedStarts := processedStarts + {id};
      } else {
        if id in processedDies { return; }
        processedDies := processedDies + {id};
      }
      // the inspection goroutine
      if info.None? { return; }
      var containerInfo := info.value;
      if |containerInfo.name| > 0 && IsWorkloadName(containerInfo.name) {
        var pid := containerInfo.pid;
        if !isStartEvent {
          pid := PidOf(containerPIDs, id);
          if pid == 0 { return; }
        }
        var nextflowContainer := CreateNextflowContainer(containerInfo, pid);
        if isStartEvent {
          containerPIDs := containerPIDs[id := pid];
          startedAudit := Csv.AppendRow(startedAudit, StartedHeader, StartedRow(nextflowContainer));
        } else {
          pid := PidOf(containerPIDs, id);
          if pid == 0 { return; }
          emitted := emitted + [nextflowContainer];
          diedAudit := Csv.AppendRow(diedAudit, DiedHeader, DiedRow(nextflowContainer));
        }
      }
    }

    /** The subscription loop's dispatch: container start and die events are processed, all else ignored. */
    method HandleMessage(eventType: string, action: string, actorId: string, info: Option<ContainerInfo>)
      modifies this
      ensures eventType == "container" && action == "start" ==> State() == Process(old(State()), actorId, true, info)
      ensures eventType == "container" && action == "die" ==> State() == Process(old(State()), actorId, false, info)
      ensures !(eventType == "container" && (action == "start" || action == "die")) ==> State() == old(State())
    {
      if eventType == "container" {
        if action == "start" {
          ProcessContainerEvent(actorId, true, info);
        } else if action == "die" {
          ProcessContainerEvent(actorId, false, info);
        }
      }
    }
  }
}
