/**
 * The error codes and health checks of the source-control helpers
 * (modules/scm/scmErrorRecover.py). An error code packs the sub-sub-phase
 * it belongs to above an 8-bit error number and sets the user-visible bit;
 * a health check runs a fixed list of checks over the helper's context and
 * reports the first that fails.
 *
 * The context dictionary is a record whose missing or `None` entries are
 * the empty string (0 for the backtrack count), as `context.get(k, '') or ''`
 * reads them. The file system is the set of paths that exist.
 */
module ScmErrorRecover {
  import opened Wrappers

  const PhaseOffset: bv32 := 4
  const SubPhaseOffset: bv32 := 4
  const SubSubPhaseOffset: bv32 := 8
  const UservisMask: bv32 := 0x1000_0000

  // `PHASE`
  const PhaseSetup: bv32 := 1

  /** `SUB_PHASE.PREPROC_SCM`, built on the SETUP phase. */
  const PreprocScm: bv32 := (PhaseSetup << PhaseOffset) + 1

  // `SUB_SUB_PHASE`
  const ScmCommit: bv32 := (PreprocScm << SubPhaseOffset) + 1
  const ScmDodiff: bv32 := (PreprocScm << SubPhaseOffset) + 2
  const ScmSource: bv32 := (PreprocScm << SubPhaseOffset) + 3

  /**
   * `ERROR_CODE` number `n`: every code is built on the COMMIT sub-sub-phase,
   * the diff and source codes included; `+` binds tighter than `|`.
   */
  function ErrorCode(n: bv32): bv32 {
    ((ScmCommit << SubSubPhaseOffset) + n) | UservisMask
  }

  /** The sub-phase is 17 and the sub-sub-phases are 273, 274 and 275. */
  lemma PhaseNumbers()
    ensures PreprocScm == 17
    ensures ScmCommit == 273 && ScmDodiff == 274 && ScmSource == 275
  {
    assert PhaseSetup << PhaseOffset == 16;
    assert PreprocScm << SubPhaseOffset == 272;
  }

  /**
   * Each of the eleven codes has the user-visible bit, the COMMIT
   * sub-sub-phase in bits 8 to 19 and its number in the low byte; so the
   * codes are distinct and non-zero.
   */
  lemma ErrorCodeLayout(n: bv32)
    requires 1 <= n <= 11
    ensures ErrorCode(n) == 0x1001_1100 + n
    ensures ErrorCode(n) & UservisMask != 0
    ensures (ErrorCode(n) >> SubSubPhaseOffset) & 0xFFF == ScmCommit
    ensures ErrorCode(n) & 0xFF == n
  {
    assert ScmCommit << SubSubPhaseOffset == 0x1_1100;
    assert 0x1_1100 + n == 0x1_1100 | n;
  }

  // The error numbers of `ERROR_CODE`.
  const CommitInvalidWorkDir: bv32 := 1
  const CommitInvalidApiHost: bv32 := 2
  const CommitInvalidProjectId: bv32 := 3
  const CommitInvalidToken: bv32 := 4
  const CommitInvalidRepoPath: bv32 := 5
  const CommitInvalidBacktrack: bv32 := 6
  const DodiffInvalidWorkDir: bv32 := 7
  const DodiffInvalidRepoPath: bv32 := 8
  const SourceInvalidWorkDir: bv32 := 9
  const SourceInvalidSources: bv32 := 10
  const SourceInvalidHostPath: bv32 := 11

  /** The `error_message` table, by error number. */
  function ErrorMessage(n: bv32): (r: string)
    ensures r == "unknown" <==> n == 0 || n > SourceInvalidHostPath
  {
    if n == CommitInvalidWorkDir || n == DodiffInvalidWorkDir || n == SourceInvalidWorkDir then "work dir does not exists"
    else if n == CommitInvalidApiHost then "api host is empty"
    else if n == CommitInvalidProjectId then "project id is empty"
    else if n == CommitInvalidToken then "token is empty"
    else if n == CommitInvalidRepoPath || n == DodiffInvalidRepoPath then "repo path does not exists"
    else if n == CommitInvalidBacktrack then "backtrack times is less than 1"
    else if n == SourceInvalidSources then "source files file does not exists"
    else if n == SourceInvalidHostPath then "host path does not exists"
    else "unknown"
  }

  /** The entries of a helper's context that the health checks read. */
  datatype Context = Context(
    workDir: string, apiHost: string, projectId: string, token: string, repoPath: string,
    backtrackTimes: int, sourceFilesFile: string, hostPath: string)

  /** One check of a health check: whether it fails, and the error number it reports. */
  datatype Probe = Probe(fails: bool, error: bv32)

  /** A health check's answer: `(0, '')`, or an error code and its message. */
  datatype Check = Check(code: int, message: string)

  const Passed := Check(0, "")

  function Report(n: bv32): Check {
    Check(ErrorCode(n) as int, ErrorMessage(n))
  }

  /** The checks are made in order and the first that fails is reported; when none fails the answer is `(0, '')`. */
  function FirstFailure(probes: seq<Probe>): (r: Check)
    requires forall i :: 0 <= i < |probes| ==> 1 <= probes[i].error <= 11
    ensures r == Passed <==> forall i :: 0 <= i < |probes| ==> !probes[i].fails
    ensures r != Passed ==>
      exists i :: 0 <= i < |probes| && probes[i].fails && r == Report(probes[i].error)
        && forall j :: 0 <= j < i ==> !probes[j].fails
    decreases |probes|
  {
    if probes == [] then Passed
    else if probes[0].fails then
      ErrorCodeLayout(probes[0].error);
      Report(probes[0].error)
    else
      var r := FirstFailure(probes[1..]);
      assert forall i :: 1 <= i < |probes| ==> probes[i] == probes[1..][i - 1];
      r
  }

  /** One step of the first-failure search, from position `k`. */
  lemma UnfoldAt(probes: seq<Probe>, k: nat)
    requires forall i :: 0 <= i < |probes| ==> 1 <= probes[i].error <= 11
    requires k < |probes|
    ensures FirstFailure(probes[k..]) ==
      if probes[k].fails then Report(probes[k].error) else FirstFailure(probes[k + 1..])
  {
    assert probes[k..][0] == probes[k] && probes[k..][1..] == probes[k + 1..];
  }

  /** The first-failure search over a list of at most six checks, unfolded. */
  lemma UnfoldAll(probes: seq<Probe>)
    requires forall i :: 0 <= i < |probes| ==> 1 <= probes[i].error <= 11
    requires 1 <= |probes| <= 6
    ensures FirstFailure(probes) ==
      if probes[0].fails then Report(probes[0].error)
      else if |probes| == 1 then Passed
      else if probes[1].fails then Report(probes[1].error)
      else if |probes| == 2 then Passed
      else if probes[2].fails then Report(probes[2].error)
      else if |probes| == 3 then Passed
      else if probes[3].fails then Report(probes[3].error)
      else if |probes| == 4 then Passed
      else if probes[4].fails then Report(probes[4].error)
      else if |probes| == 5 then Passed
      else if probes[5].fails then Report(probes[5].error)
      else Passed
  {
    assert probes[0..] == probes && probes[|probes|..] == [];
    UnfoldAt(probes, 0);
    if |probes| > 1 { UnfoldAt(probes, 1); }
    if |probes| > 2 { UnfoldAt(probes, 2); }
    if |probes| > 3 { UnfoldAt(probes, 3); }
    if |probes| > 4 { UnfoldAt(probes, 4); }
    if |probes| > 5 { UnfoldAt(probes, 5); }
  }

  /**
   * The existence test of the checks after the first: the path must be
   * non-empty and exist. As written the test asks whether `work_dir` exists
   * rather than the path itself.
   */
  predicate PathMissing(path: string, workDir: string, fs: set<string>, asWritten: bool) {
    |path| == 0 || (if asWritten then workDir else path) !in fs
  }

  predicate WorkDirMissing(c: Context, fs: set<string>) {
    |c.workDir| == 0 || c.workDir !in fs
  }

  /** `default_scm_get_commit_id_health_check`: work dir, API host, project id, token, repo path, backtrack count. */
  function CommitProbes(c: Context, fs: set<string>, asWritten: bool): seq<Probe> {
    [Probe(WorkDirMissing(c, fs), CommitInvalidWorkDir),
     Probe(|c.apiHost| == 0, CommitInvalidApiHost),
     Probe(|c.projectId| == 0, CommitInvalidProjectId),
     Probe(|c.token| == 0, CommitInvalidToken),
     Probe(PathMissing(c.repoPath, c.workDir, fs, asWritten), CommitInvalidRepoPath),
     Probe(c.backtrackTimes < 1, CommitInvalidBacktrack)]
  }

  /** `default_scm_get_diff_file_health_check`: work dir, repo path. */
  function DiffProbes(c: Context, fs: set<string>, asWritten: bool): seq<Probe> {
    [Probe(WorkDirMissing(c, fs), DodiffInvalidWorkDir),
     Probe(PathMissing(c.repoPath, c.workDir, fs, asWritten), DodiffInvalidRepoPath)]
  }

  /** `default_scm_get_source_code_health_check`: work dir, source list file, host path. */
  function SourceProbes(c: Context, fs: set<string>, asWritten: bool): seq<Probe> {
    [Probe(WorkDirMissing(c, fs), SourceInvalidWorkDir),
     Probe(PathMissing(c.sourceFilesFile, c.workDir, fs, asWritten), SourceInvalidSources),
     Probe(PathMissing(c.hostPath, c.workDir, fs, asWritten), SourceInvalidHostPath)]
  }

  /** How a health check ends as written: with an answer, or by raising `AttributeError` on a misspelt member. */
  datatype CheckOutcome = Answers(check: Check) | RaisesAttributeError(member: string)

  /**
   * `POST_STATUS.health_check` as written: the commit check names the
   * misspelt `PREPROC_SCM_COMMIT_INVALUD_WORK_DIR` when the work dir is
   * missing, and the later path checks test the work dir again.
   */
  function HealthCheckAsWritten(phase: bv32, c: Context, fs: set<string>): (r: CheckOutcome)
    ensures r.RaisesAttributeError? <==> phase == ScmCommit && WorkDirMissing(c, fs)
    ensures phase != ScmCommit && phase != ScmDodiff && phase != ScmSource ==> r == Answers(Passed)
  {
    if phase == ScmCommit then
      if WorkDirMissing(c, fs) then RaisesAttributeError("PREPROC_SCM_COMMIT_INVALUD_WORK_DIR")
      else Answers(FirstFailure(CommitProbes(c, fs, true)))
    else if phase == ScmDodiff then Answers(FirstFailure(DiffProbes(c, fs, true)))
    else if phase == ScmSource then Answers(FirstFailure(SourceProbes(c, fs, true)))
    else Answers(Passed)
  }

  /**
   * `POST_STATUS.health_check` as intended: the registered check of the
   * sub-sub-phase, or `(0, '')` for a phase without one.
   */
  function HealthCheck(phase: bv32, c: Context, fs: set<string>): (r: Check)
    ensures phase != ScmCommit && phase != ScmDodiff && phase != ScmSource ==> r == Passed
  {
    if phase == ScmCommit then FirstFailure(CommitProbes(c, fs, false))
    else if phase == ScmDodiff then FirstFailure(DiffProbes(c, fs, false))
    else if phase == ScmSource then FirstFailure(SourceProbes(c, fs, false))
    else Passed
  }

  /**
   * The commit check passes iff every entry is set, the work dir and the
   * repo path exist and the backtrack count is at least 1; otherwise it
   * reports the first failure in the order work dir, API host, project id,
   * token, repo path, backtrack count.
   */
  lemma {:induction false} CommitCheckOrder(c: Context, fs: set<string>)
    ensures HealthCheck(ScmCommit, c, fs) == Passed <==>
      c.workDir in fs && |c.workDir| > 0 && |c.apiHost| > 0 && |c.projectId| > 0 && |c.token| > 0
      && c.repoPath in fs && |c.repoPath| > 0 && c.backtrackTimes >= 1
    ensures WorkDirMissing(c, fs) ==> HealthCheck(ScmCommit, c, fs) == Report(CommitInvalidWorkDir)
    ensures !WorkDirMissing(c, fs) && |c.apiHost| == 0 ==> HealthCheck(ScmCommit, c, fs) == Report(CommitInvalidApiHost)
    ensures !WorkDirMissing(c, fs) && |c.apiHost| > 0 && |c.projectId| == 0 ==>
      HealthCheck(ScmCommit, c, fs) == Report(CommitInvalidProjectId)
    ensures !WorkDirMissing(c, fs) && |c.apiHost| > 0 && |c.projectId| > 0 && |c.token| == 0 ==>
      HealthCheck(ScmCommit, c, fs) == Report(CommitInvalidToken)
    ensures !WorkDirMissing(c, fs) && |c.apiHost| > 0 && |c.projectId| > 0 && |c.token| > 0
      && (|c.repoPath| == 0 || c.repoPath !in fs)
      ==> HealthCheck(ScmCommit, c, fs) == Report(CommitInvalidRepoPath)
  {
    var p := CommitProbes(c, fs, false);
    UnfoldAll(p);
  }

  /** The diff and source checks pass iff their paths are set and exist. */
  lemma {:induction false} DiffAndSourceChecks(c: Context, fs: set<string>)
    ensures HealthCheck(ScmDodiff, c, fs) == Passed <==>
      |c.workDir| > 0 && c.workDir in fs && |c.repoPath| > 0 && c.repoPath in fs
    ensures HealthCheck(ScmSource, c, fs) == Passed <==>
      |c.workDir| > 0 && c.workDir in fs && |c.sourceFilesFile| > 0 && c.sourceFilesFile in fs
      && |c.hostPath| > 0 && c.hostPath in fs
  {
    UnfoldAll(DiffProbes(c, fs, false));
    UnfoldAll(SourceProbes(c, fs, false));
  }

  /**
   * As written, a missing work dir raises instead of reporting
   * PREPROC_SCM_COMMIT_INVALID_WORK_DIR, which the intended check reports.
   */
  lemma MisspeltMemberRaises(c: Context, fs: set<string>)
    requires c.workDir == ""
    ensures HealthCheckAsWritten(ScmCommit, c, fs).RaisesAttributeError?
    ensures HealthCheck(ScmCommit, c, fs) == Check(0x1001_1101, "work dir does not exists")
  {
    ErrorCodeLayout(CommitInvalidWorkDir);
  }

  /**
   * As written, once the work dir exists the later path checks only test
   * that the path is non-empty: a diff check with a repo path that does
   * not exist passes, while the intended check reports
   * PREPROC_SCM_DODIFF_INVALID_REPO_PATH.
   */
  lemma MissingRepoPathPasses()
    ensures var c := Context("/work", "", "", "", "/no/such/repo", 0, "", "");
      HealthCheckAsWritten(ScmDodiff, c, {"/work"}) == Answers(Passed)
      && HealthCheck(ScmDodiff, c, {"/work"}) == Check(0x1001_1108, "repo path does not exists")
  {
    var c := Context("/work", "", "", "", "/no/such/repo", 0, "", "");
    UnfoldAll(DiffProbes(c, {"/work"}, true));
    UnfoldAll(DiffProbes(c, {"/work"}, false));
  }

  /** The test of the later checks as written reduces to non-emptiness whenever the work dir exists. */
  lemma AsWrittenTestsOnlyEmptiness(path: string, workDir: string, fs: set<string>)
    requires workDir in fs
    ensures PathMissing(path, workDir, fs, true) <==> |path| == 0
  {
  }

  /** `POST_STATUS.fini`: the process exits with FINI_STATUS iff it is non-zero, and otherwise goes on. */
  function Fini(finiStatus: int): (exit: Option<int>)
    ensures exit.Some? <==> finiStatus != 0
    ensures exit.Some? ==> exit.value == finiStatus
  {
    if finiStatus != 0 then Some(finiStatus) else None
  }
}
