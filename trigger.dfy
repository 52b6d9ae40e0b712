/**
 * The pure and state-keeping parts of the Jenkins trigger
 * (modules/trigger/xcal-trigger.py): the classification of a server-sent
 * scan event, the buffering and replay of events that arrive before the
 * trigger knows its scan task id, the choice of the project configuration
 * path, and the classification of the client's exit code.
 */
module Trigger {
  import opened Wrappers
  import Strs
  import Paths

  // `ScanTaskStatus` names.
  const Processing := "PROCESSING"
  const Completed := "COMPLETED"
  const Failed := "FAILED"
  const Terminated := "TERMINATED"

  // `SsePhase` names a scan event can come from.
  const PhaseProc := "PROC"
  const PhasePostproc := "POSTPROC"

  // `SseStatus` names.
  const SseSucc := "SUCC"
  const SseFailed := "FAILED"
  const SseFatal := "FATAL"
  const SseCancel := "CANCEL"

  /** A server-sent event: the scan task it is about, the phase that sent it and that phase's status. */
  datatype SseEvent = SseEvent(scanTaskId: string, source: string, status: string)

  /**
   * `Sse.calc_scan_task_status`: a failed or fatal PROC or POSTPROC phase
   * fails the scan task, a cancelled one terminates it, a successful POSTPROC
   * completes it, and everything else leaves it processing (a successful PROC
   * included).
   */
  function CalcScanTaskStatus(e: SseEvent): (r: string)
    ensures r == Failed <==>
      (e.source == PhaseProc || e.source == PhasePostproc) && (e.status == SseFailed || e.status == SseFatal)
    ensures r == Terminated <==> (e.source == PhaseProc || e.source == PhasePostproc) && e.status == SseCancel
    ensures r == Completed <==> e.source == PhasePostproc && e.status == SseSucc
    ensures r == Processing || r == Failed || r == Terminated || r == Completed
  {
    if e.source == PhaseProc then
      if e.status == SseFailed || e.status == SseFatal then Failed
      else if e.status == SseCancel then Terminated
      else Processing
    else if e.source == PhasePostproc then
      if e.status == SseFailed || e.status == SseFatal then Failed
      else if e.status == SseCancel then Terminated
      else if e.status == SseSucc then Completed
      else Processing
    else Processing
  }

  /**
   * The status after replaying buffered events from `status`: each event
   * sets the status, and the replay stops at the first event that decides
   * the scan task (a status other than PROCESSING).
   */
  function Replay(status: string, events: seq<SseEvent>): (r: string)
    ensures events == [] ==> r == status
    ensures events != [] ==> r == Processing || r == Failed || r == Terminated || r == Completed
    decreases |events|
  {
    if events == [] then status
    else
      var s := CalcScanTaskStatus(events[0]);
      if s != Processing then s else Replay(s, events[1..])
  }

  /** The index of the first event that decides the scan task. */
  predicate FirstDecision(events: seq<SseEvent>, i: int) {
    0 <= i < |events| && CalcScanTaskStatus(events[i]) != Processing
    && forall j :: 0 <= j < i ==> CalcScanTaskStatus(events[j]) == Processing
  }

  /**
   * The replay ends with the status of the first deciding event; with no
   * deciding event it ends PROCESSING, and with no event at all it keeps the
   * status it started from.
   */
  lemma {:induction false} ReplayStopsAtFirstDecision(status: string, events: seq<SseEvent>)
    ensures events == [] ==> Replay(status, events) == status
    ensures forall i :: FirstDecision(events, i) ==> Replay(status, events) == CalcScanTaskStatus(events[i])
    ensures events != [] && (forall i :: 0 <= i < |events| ==> CalcScanTaskStatus(events[i]) == Processing) ==>
      Replay(status, events) == Processing
    decreases |events|
  {
    if events != [] {
      var s := CalcScanTaskStatus(events[0]);
      if s == Processing {
        ReplayStopsAtFirstDecision(s, events[1..]);
        forall i | FirstDecision(events, i)
          ensures Replay(status, events) == CalcScanTaskStatus(events[i])
        {
          assert i > 0;
          assert FirstDecision(events[1..], i - 1) by {
            forall j | 0 <= j < i - 1
              ensures CalcScanTaskStatus(events[1..][j]) == Processing
            {
              assert events[1..][j] == events[j + 1];
            }
          }
          assert events[1..][i - 1] == events[i];
        }
        if forall i :: 0 <= i < |events| ==> CalcScanTaskStatus(events[i]) == Processing {
          if |events| == 1 {
            assert Replay(s, events[1..]) == s;
          } else {
            assert forall i :: 0 <= i < |events[1..]| ==> events[1..][i] == events[i + 1];
          }
        }
      } else {
        assert forall i :: FirstDecision(events, i) ==> i == 0;
      }
    }
  }

  /** The events buffered for a scan task id (`histories.get(id, [])`). */
  function HistoryOf(histories: map<string, seq<SseEvent>>, id: string): seq<SseEvent> {
    if id in histories then histories[id] else []
  }

  /** `Sse`: the scan task id once known, its status, and the events buffered before the id was known. */
  class Sse {
    var scanTaskId: Option<string>
    var scanTaskStatus: string
    var histories: map<string, seq<SseEvent>>

    /** A listener starts with no id, status PROCESSING and nothing buffered. */
    constructor ()
      ensures scanTaskId == None && scanTaskStatus == Processing && histories == map[]
    {
      scanTaskId := None;
      scanTaskStatus := Processing;
      histories := map[];
    }

    /**
     * One event of `subscribe`: before the id is known the event is buffered
     * under its own scan task id; afterwards an event for that id sets the
     * status, and the listener stops once the status is decided. Events for
     * other tasks are ignored.
     */
    method Receive(e: SseEvent) returns (stop: bool)
      modifies this`histories, this`scanTaskStatus
      ensures scanTaskId.None? ==>
        histories == old(histories)[e.scanTaskId := HistoryOf(old(histories), e.scanTaskId) + [e]]
        && scanTaskStatus == old(scanTaskStatus) && !stop
      ensures scanTaskId == Some(e.scanTaskId) ==>
        histories == old(histories) && scanTaskStatus == CalcScanTaskStatus(e)
        && (stop <==> CalcScanTaskStatus(e) != Processing)
      ensures scanTaskId.Some? && scanTaskId != Some(e.scanTaskId) ==>
        histories == old(histories) && scanTaskStatus == old(scanTaskStatus) && !stop
    {
      stop := false;
      if scanTaskId.None? {
        histories := histories[e.scanTaskId := HistoryOf(histories, e.scanTaskId) + [e]];
      } else if scanTaskId == Some(e.scanTaskId) {
        scanTaskStatus := CalcScanTaskStatus(e);
        stop := scanTaskStatus != Processing;
      }
    }

    /**
     * `Sse.set_scan_task_id`: only the first call sets the id; it then
     * replays the events buffered for that id. The current status is
     * returned either way.
     */
    method SetScanTaskId(id: string) returns (status: string)
      modifies this`scanTaskId, this`scanTaskStatus
      ensures old(scanTaskId).None? ==>
        scanTaskId == Some(id) && scanTaskStatus == Replay(old(scanTaskStatus), HistoryOf(histories, id))
      ensures old(scanTaskId).Some? ==> scanTaskId == old(scanTaskId) && scanTaskStatus == old(scanTaskStatus)
      ensures status == scanTaskStatus
    {
      if scanTaskId.None? {
        scanTaskId := Some(id);
        var events := HistoryOf(histories, id);
        var i := 0;
        while i < |events|
          invariant 0 <= i <= |events|
          invariant scanTaskId == Some(id)
          invariant Replay(old(scanTaskStatus), events) == Replay(scanTaskStatus, events[i..])
        {
          assert events[i..][0] == events[i] && events[i..][1..] == events[i + 1..];
          scanTaskStatus := CalcScanTaskStatus(events[i]);
          if scanTaskStatus != Processing {
            assert Replay(old(scanTaskStatus), events) == scanTaskStatus;
            break;
          }
          i := i + 1;
        }
      }
      status := scanTaskStatus;
    }
  }

  /** `PROJECT_CONFIG_FILE_NAME`. */
  const ProjectConfigFileName := "xcalscan.conf"

  /** `os.path.join(a, b)` on POSIX: an absolute `b` replaces `a`; otherwise a separator is inserted when needed. */
  function PathJoin(a: string, b: string): (r: string)
    ensures Strs.EndsWith(r, b)
    ensures !Strs.StartsWith(b, "/") ==> Strs.StartsWith(r, a)
  {
    if Strs.StartsWith(b, "/") then b
    else
      var r := if a == "" || Strs.EndsWith(a, "/") then a + b else a + "/" + b;
      assert r[..|a|] == a && r[|r| - |b|..] == b;
      r
  }

  datatype ConfigPath = Path(path: string) | Raises(message: string)

  /**
   * `App.get_project_config_path`: the `-c` path made absolute against the
   * working directory `cwd` and normalised (`os.path.abspath`), else
   * `xcalscan.conf` under the `-s` project path, else an error.
   */
  function ProjectConfigPath(projectPath: Option<string>, configPath: Option<string>, cwd: string): (r: ConfigPath)
    ensures r.Raises? <==> projectPath.None? && configPath.None?
    ensures r.Raises? ==> r.message == "Either -s or -c have to be specified."
    ensures configPath.Some? ==> r.Path? && r.path == Paths.NormPath(PathJoin(cwd, configPath.value))
    ensures configPath.Some? && Strs.StartsWith(configPath.value, "/") ==> r.path == Paths.NormPath(configPath.value)
    ensures configPath.Some? && (Strs.StartsWith(cwd, "/") || Strs.StartsWith(configPath.value, "/")) ==>
      Strs.StartsWith(r.path, "/")
    ensures configPath.None? && r.Path? ==>
      Strs.StartsWith(r.path, projectPath.value) && Strs.EndsWith(r.path, ProjectConfigFileName)
  {
    if configPath.Some? then
      var joined := PathJoin(cwd, configPath.value);
      assert Strs.StartsWith(cwd, "/") && !Strs.StartsWith(configPath.value, "/") ==> joined[..1] == cwd[..1];
      Path(Paths.NormPath(joined))
    else if projectPath.Some? then
      assert ProjectConfigFileName[..1] == "x";
      Path(PathJoin(projectPath.value, ProjectConfigFileName))
    else Raises("Either -s or -c have to be specified.")
  }

  // Client exit codes the trigger tolerates.
  const ExitCommitIdScanned := 12
  const ExitBuildSuccessWithoutIFile := 4
  const ExitBuildFail := 5
  const IgnoredErrorCodes: seq<int> := [0, 10, ExitCommitIdScanned, ExitBuildSuccessWithoutIFile, ExitBuildFail]

  /** What the trigger does after the client process ends. */
  datatype ClientOutcome = ClientFailed(message: string) | TriggerExits(code: int) | Continues

  /**
   * The handling of the client's exit code in `App.exec`: a timeout or a
   * code outside IGNORED_ERROR_CODES is an error; 12, 4 and 5 end the
   * trigger with status 0; 0 and 10 go on to wait for the scan.
   */
  function ClientExit(returncode: int, timedOut: bool): (r: ClientOutcome)
    ensures r.ClientFailed? <==> timedOut || returncode !in IgnoredErrorCodes
    ensures r.TriggerExits? <==> !timedOut && (returncode == 12 || returncode == 4 || returncode == 5)
    ensures r.TriggerExits? ==> r.code == 0
    ensures r.Continues? <==> !timedOut && (returncode == 0 || returncode == 10)
    ensures r.ClientFailed? && !timedOut ==>
      r.message == "Failed to execute client. Exit(" + Strs.IntToString(returncode) + ")"
  {
    if timedOut then ClientFailed("Execute client timeout")
    else if returncode !in IgnoredErrorCodes then
      ClientFailed("Failed to execute client. Exit(" + Strs.IntToString(returncode) + ")")
    else if returncode in [ExitCommitIdScanned, ExitBuildSuccessWithoutIFile, ExitBuildFail] then TriggerExits(0)
    else Continues
  }
}
