/**
 * The per-epoch metrics hook, `MetricsCallback.on_epoch_end`
 * (dollar_gpu_club/__init__.py lines 110-132).
 */
module Metrics {
  import opened Results
  import opened Settings
  import opened Effects

  /**
   * The report built from an epoch log: none when `loss` or `acc` is None; otherwise the
   * epoch, the training accuracy and loss, and a validation section holding each of
   * `val_loss` and `val_acc` that is truthy, present only when one of them is.
   */
  function BuildReport(epoch: int, logs: Logs): (r: Option<Report>)
    ensures r.None? <==> Get(logs, "loss") == PyNone || Get(logs, "acc") == PyNone
    ensures r.Some? ==> r.value.epoch == epoch
    ensures r.Some? ==>
      Get(logs, "acc") == Num(r.value.training.accuracy) && Get(logs, "loss") == Num(r.value.training.loss)
    ensures r.Some? ==>
      (r.value.validation.Some? <==> Truthy(Get(logs, "val_loss")) || Truthy(Get(logs, "val_acc")))
    ensures r.Some? && r.value.validation.Some? ==>
      (r.value.validation.value.loss.Some? <==> Truthy(Get(logs, "val_loss"))) &&
      (r.value.validation.value.accuracy.Some? <==> Truthy(Get(logs, "val_acc")))
    ensures r.Some? && r.value.validation.Some? && r.value.validation.value.loss.Some? ==>
      Get(logs, "val_loss") == Num(r.value.validation.value.loss.value)
    ensures r.Some? && r.value.validation.Some? && r.value.validation.value.accuracy.Some? ==>
      Get(logs, "val_acc") == Num(r.value.validation.value.accuracy.value)
  {
    var loss, acc := Get(logs, "loss"), Get(logs, "acc");
    var valLoss, valAcc := Get(logs, "val_loss"), Get(logs, "val_acc");
    if loss == PyNone || acc == PyNone then None
    else
      var validation := Validation(
        if Truthy(valLoss) then Some(valLoss.x) else None,
        if Truthy(valAcc) then Some(valAcc.x) else None);
      var section := if validation.loss.Some? || validation.accuracy.Some? then Some(validation) else None;
      Some(Report(epoch, Training(acc.x, loss.x), section))
  }

  /**
   * `MetricsCallback.on_epoch_end`: no report, no effect; otherwise exactly one effect,
   * the dev-mode log line or the POST of the report to the job's metrics URL, whose
   * response status is ignored.
   */
  function OnEpochEnd(cfg: Config, world: World, epoch: int, logs: Logs): (s: Step<Result<(), Fault>>)
    ensures BuildReport(epoch, logs).None? ==> s == Step([], Ok(()))
    ensures BuildReport(epoch, logs).Some? ==> |s.trace| == 1
    ensures BuildReport(epoch, logs).Some? && cfg.dev ==>
      s == Step([Print(SkippingMetricsPost(BuildReport(epoch, logs).value))], Ok(()))
    ensures BuildReport(epoch, logs).Some? && !cfg.dev ==>
      s.trace == [Invoke(HttpPost(cfg.MetricsUrl(), MetricsForm(BuildReport(epoch, logs).value)))]
    ensures s.result.Err? <==>
      !cfg.dev && BuildReport(epoch, logs).Some? && world(s.trace[0].call).Raised?
    ensures s.result.Err? ==> RaisedByLastCall(s.trace, world, s.result.error)
    ensures cfg.dev ==> Offline(s.trace)
    ensures Exit !in s.trace
  {
    match BuildReport(epoch, logs)
    case None => Step([], Ok(()))
    case Some(report) =>
      if cfg.dev then Step([Print(SkippingMetricsPost(report))], Ok(()))
      else
        var post := HttpPost(cfg.MetricsUrl(), MetricsForm(report));
        match world(post)
        case Raised(f) => Step([Invoke(post)], Err(f))
        case Returned(_) => Step([Invoke(post)], Ok(()))
  }

  /** A validation loss and accuracy of zero are both dropped, so no validation part is sent. */
  lemma ZeroValidationIsOmitted(epoch: int, logs: Logs)
    requires "loss" in logs && logs["loss"].Num? && "acc" in logs && logs["acc"].Num?
    requires "val_loss" in logs && logs["val_loss"] == Num(0.0)
    requires "val_acc" in logs && logs["val_acc"] == Num(0.0)
    ensures BuildReport(epoch, logs).Some? && BuildReport(epoch, logs).value.validation.None?
  {
  }

  /** A training loss of zero is still reported, since the test there is `is None`. */
  lemma ZeroTrainingLossIsReported(epoch: int, logs: Logs)
    requires "loss" in logs && logs["loss"] == Num(0.0) && "acc" in logs && logs["acc"].Num?
    ensures BuildReport(epoch, logs).Some? && BuildReport(epoch, logs).value.training.loss == 0.0
  {
  }
}
