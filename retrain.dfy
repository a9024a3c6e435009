/**
 * The retrain trigger: once the current MAE and R² have been fetched from
 * the metrics backend, decide whether the model drifted, score the drift,
 * explain it, and decide whether to dispatch the retraining workflow.
 *
 * The metrics queries and the HTTP dispatch are outside the model: the
 * query results and the HTTP outcome are parameters. Number formatting
 * (`{x:.4f}`) is a parameter `fmt` as well.
 */
module Retrain {
  import opened Wrappers
  import opened Seqs

  const MaeThreshold: real := 0.45
  const R2Threshold: real := 0.75

  /** The workflow the trigger dispatches. */
  const WorkflowFile: string := "retrain-model.yaml"

  /** What `check_model_drift` reports; `mae` and `r2` are absent when a query returned nothing. */
  datatype DriftStatus = DriftStatus(
    driftDetected: bool,
    mae: Option<real>,
    r2: Option<real>,
    driftScore: real,
    reason: string)

  /** Python's `max(0, x)`. */
  function AtLeastZero(x: real): real
  {
    if x > 0.0 then x else 0.0
  }

  /** MAE above its threshold, or R² below its threshold. */
  predicate Drifted(mae: real, r2: real)
  {
    mae > MaeThreshold || r2 < R2Threshold
  }

  /** Relative excess of the MAE over its threshold, 0 without MAE drift. */
  function MaeScore(mae: real): real
  {
    if mae > MaeThreshold then AtLeastZero((mae - MaeThreshold) / MaeThreshold) else 0.0
  }

  /** Relative shortfall of R² under its threshold, 0 without R² drift. */
  function R2Score(r2: real): real
  {
    if r2 < R2Threshold then AtLeastZero((R2Threshold - r2) / R2Threshold) else 0.0
  }

  /** The drift score: the mean of the two partial scores. */
  function DriftScore(mae: real, r2: real): (score: real)
    ensures score >= 0.0
    ensures score == 0.0 <==> !Drifted(mae, r2)
  {
    (MaeScore(mae) + R2Score(r2)) / 2.0
  }

  /** A worse MAE and a worse R² never lower the drift score. */
  lemma DriftScoreMonotone(mae1: real, r21: real, mae2: real, r22: real)
    requires mae1 <= mae2 && r21 >= r22
    ensures DriftScore(mae1, r21) <= DriftScore(mae2, r22)
  {
  }

  /** Reason text for MAE drift, "MAE(<mae>) > 0.45". */
  function MaeReason(mae: real, fmt: real -> string): string
  {
    "MAE(" + fmt(mae) + ") > 0.45"
  }

  /** Reason text for R² drift, "R²(<r2>) < 0.75". */
  function R2Reason(r2: real, fmt: real -> string): string
  {
    "R\U{00B2}(" + fmt(r2) + ") < 0.75"
  }

  const NoMetricsReason: string := "No metrics available"
  const NormalReason: string := "Model performance normal"

  /**
   * `check_model_drift` after the two queries: either query empty gives a
   * "no metrics" status; otherwise the first value of each is compared with
   * its threshold, scored, and explained (MAE reason first, joined by "; ").
   */
  method CheckModelDrift(maeResult: seq<real>, r2Result: seq<real>, fmt: real -> string) returns (status: DriftStatus)
    ensures |maeResult| == 0 || |r2Result| == 0 ==>
      status == DriftStatus(false, None, None, 0.0, NoMetricsReason)
    ensures |maeResult| > 0 && |r2Result| > 0 ==>
      var mae, r2 := maeResult[0], r2Result[0];
      && status.mae == Some(mae) && status.r2 == Some(r2)
      && (status.driftDetected <==> Drifted(mae, r2))
      && status.driftScore == DriftScore(mae, r2)
      && status.reason == (
           if mae > MaeThreshold && r2 < R2Threshold then MaeReason(mae, fmt) + "; " + R2Reason(r2, fmt)
           else if mae > MaeThreshold then MaeReason(mae, fmt)
           else if r2 < R2Threshold then R2Reason(r2, fmt)
           else NormalReason)
    ensures status.driftDetected <==> status.driftScore > 0.0
  {
    if |maeResult| == 0 || |r2Result| == 0 {
      return DriftStatus(false, None, None, 0.0, NoMetricsReason);
    }
    var mae := maeResult[0];
    var r2 := r2Result[0];
    var maeDrift := mae > MaeThreshold;
    var r2Drift := r2 < R2Threshold;
    var maeScore := if maeDrift then AtLeastZero((mae - MaeThreshold) / MaeThreshold) else 0.0;
    var r2Score := if r2Drift then AtLeastZero((R2Threshold - r2) / R2Threshold) else 0.0;
    var driftScore := (maeScore + r2Score) / 2.0;
    var reasons: seq<string> := [];
    if maeDrift {
      reasons := reasons + [MaeReason(mae, fmt)];
    }
    if r2Drift {
      reasons := reasons + [R2Reason(r2, fmt)];
    }
    if maeDrift && r2Drift {
      assert reasons == [MaeReason(mae, fmt), R2Reason(r2, fmt)];
      assert reasons[1..] == [R2Reason(r2, fmt)];
      assert Join(reasons, "; ") == MaeReason(mae, fmt) + "; " + R2Reason(r2, fmt);
    } else if maeDrift {
      assert Join(reasons, "; ") == MaeReason(mae, fmt);
    } else if r2Drift {
      assert Join(reasons, "; ") == R2Reason(r2, fmt);
    }
    var reason := if |reasons| > 0 then Join(reasons, "; ") else NormalReason;
    status := DriftStatus(maeDrift || r2Drift, Some(mae), Some(r2), driftScore, reason);
  }

  /** The `workflow_dispatch` request the trigger sends. */
  datatype WorkflowDispatch = WorkflowDispatch(workflow: string, gitRef: string, userId: string, driftScore: real)

  /** What the HTTP client reported: a status code, or an exception. */
  datatype HttpOutcome = Responded(statusCode: int) | RequestFailed(message: string)

  /**
   * `trigger_github_workflow`: succeeds without any request in dry-run mode;
   * fails without a request when no token is configured; otherwise sends the
   * dispatch and succeeds exactly on status 204.
   */
  method TriggerGithubWorkflow(userId: string, driftScore: real, dryRun: bool, token: string, response: HttpOutcome)
    returns (success: bool, request: Option<WorkflowDispatch>)
    ensures dryRun ==> success && request == None
    ensures !dryRun && token == "" ==> !success && request == None
    ensures !dryRun && token != "" ==>
      && request == Some(WorkflowDispatch(WorkflowFile, "main", userId, driftScore))
      && (success <==> response == Responded(204))
  {
    if dryRun {
      return true, None;
    }
    if token == "" {
      return false, None;
    }
    request := Some(WorkflowDispatch(WorkflowFile, "main", userId, driftScore));
    match response {
      case Responded(code) => success := code == 204;
      case RequestFailed(_) => success := false;
    }
  }

  /** The score handed to the trigger: Python's `score or 0.5`, so a zero score becomes 0.5. */
  function ScoreToSend(score: real): (sent: real)
    ensures score == 0.0 ==> sent == 0.5
    ensures score != 0.0 ==> sent == score
    ensures score >= 0.0 ==> sent > 0.0
  {
    if score == 0.0 then 0.5 else score
  }

  /** In `--check-drift` mode a dispatch carries the real drift score, never the 0.5 fallback. */
  lemma CheckDriftSendsRealScore(maeResult: seq<real>, r2Result: seq<real>)
    requires |maeResult| > 0 && |r2Result| > 0 && Drifted(maeResult[0], r2Result[0])
    ensures ScoreToSend(DriftScore(maeResult[0], r2Result[0])) == DriftScore(maeResult[0], r2Result[0]) > 0.0
  {
  }

  /** The command-line switches `main` reads. */
  datatype Flags = Flags(checkDrift: bool, forceTrigger: bool, noDryRun: bool)

  /**
   * `main` after the drift check: `--force-trigger` always triggers,
   * `--check-drift` triggers exactly on detected drift, neither flag returns
   * 0 without triggering. The exit code is 1 only when a trigger was
   * attempted and failed.
   */
  method RunTrigger(flags: Flags, status: DriftStatus, userId: string, token: string, response: HttpOutcome)
    returns (exitCode: int, attempted: bool, request: Option<WorkflowDispatch>)
    ensures attempted <==> flags.forceTrigger || (flags.checkDrift && status.driftDetected)
    ensures !attempted ==> exitCode == 0 && request == None
    ensures attempted && !flags.noDryRun ==> exitCode == 0 && request == None
    ensures attempted && flags.noDryRun && token == "" ==> exitCode == 1 && request == None
    ensures attempted && flags.noDryRun && token != "" ==>
      && request == Some(WorkflowDispatch(WorkflowFile, "main", userId, ScoreToSend(status.driftScore)))
      && (exitCode == 0 <==> response == Responded(204))
    ensures exitCode == 0 || exitCode == 1
  {
    var dryRun := !flags.noDryRun;
    var shouldTrigger := false;
    if flags.forceTrigger {
      shouldTrigger := true;
    } else if flags.checkDrift {
      if status.driftDetected {
        shouldTrigger := true;
      }
    } else {
      return 0, false, None;
    }
    attempted := shouldTrigger;
    exitCode := 0;
    request := None;
    if shouldTrigger {
      var success;
      success, request := TriggerGithubWorkflow(userId, ScoreToSend(status.driftScore), dryRun, token, response);
      if !success {
        exitCode := 1;
      }
    }
  }
}
