/** The client's shared constants (policy/data/enums.js). */
module Enums {
  // Task and step statuses.
  const Failed := "FAILED"
  const Aborted := "ABORTED"
  const Success := "SUCCESS"
  const Pending := "PENDING"
  const Processing := "PROCESSING"

  // Process exit codes; there is no SUCCESS entry among them.
  const ExitOk: int := 0
  const ExitGeneralError: int := 1
  const ExitBuildSuccessWithoutIFile: int := 4
  const ExitBuildFail: int := 5
  const ExitNoScanRecord: int := 10
  const ExitSameSourceCode: int := 11
  const ExitSameCommitId: int := 12

  // Repository actions.
  const RepoCD := "CD"
  const RepoCI := "CI"
  const RepoTrial := "TRIAL"

  // States of the CI/CD state machine.
  const FsmStart := "START"
  const FsmTrialScanDone := "TRIAL_SCAN_DONE"
  const FsmCleanScanDone := "CLEAN_SCAN_DONE"
  const FsmCiDsrScanDone := "CI_DSR_SCAN_DONE"
  const FsmCdDsrScanDone := "CD_DSR_SCAN_DONE"
}
