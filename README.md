# dollar_gpu_club, modelled in Dafny

`dollar_gpu_club` wraps a Keras training job that runs on a spot instance. Its job is to
let the job survive pre-emption. The wrapper's `compile` first restores the job's
checkpoint from S3, if one exists. Its `fit` then does three things:

- it announces the start of the job to the application server;
- it registers a metrics hook that posts the training and validation figures after every
  epoch;
- it registers a pre-emption hook. When the instance is about to be reclaimed, this hook
  saves the weights, uploads them to S3, tells the server the job halted, and exits the
  process.

In dev mode (`DEV_MODE` unset or non-empty) no storage or network call is made. The
restore, the start notification and the metrics hook print log lines instead. The
pre-emption hook does nothing at all: `_is_dying` answers false without a request
(line 141), so the hook returns at once and its dev-mode branch (lines 148-149) is never
reached.

## How the model is built

Every collaborator the package calls goes through one oracle, `Effects.World`, which
maps each `Call` to a `Reply` (either `Returned(status)` or `Raised(fault)`). The
collaborators are:

- S3 (`Object.load`, `download_file`, `upload_file`);
- `requests` (`get`, `post`);
- the Keras model (`load_weights`, `save_weights`, `compile`, `fit`);
- user callbacks.

Each operation is first given as a pure function returning a `Step`. A `Step` holds the
effects, in order, and the result:

- `Invoke(call)` for a call to a collaborator;
- `Print(message)` for a log line;
- `Exit` for `sys.exit()`.

The module-level settings are a `Settings.Config`, loaded from the environment by
`Settings.Load`.

The class `Wrapper.Runtime` is the package as it runs. It holds the configuration and
the effects emitted so far. Its methods emit effects one at a time, as the Python does,
and each method is proved to emit exactly the trace of the matching function. The
pre-emption hook's method is also proved to leave the process running exactly when the
hook did not halt.

The source contains two defects. Both are modelled as written and as evidently intended,
selected by `Effects.Revision` (`AsWritten` / `Intended`); see "## Findings".

Keras's epoch loop is not part of this package. `Session.RunEpochs` stands in for it
only as far as the hooks need: at the end of each epoch it calls each registered
callback's `on_epoch_end` in list order, and it stops at the first callback that raises
or exits.

Two points about the metadata probe (`dollar_gpu_club/__init__.py:139-142`):

- The EC2 instance-action endpoint answers 200 only when a spot interruption is
  scheduled, and 404 otherwise. The code reports dying on every status except 200. The
  model follows the code (`AsWritten`), takes "dying exactly on 200" as the intended
  reading (`Intended`), and records the difference as the second finding.
- A probe that cannot connect makes `requests.get` raise. Nothing in the code catches
  it, so the model propagates that exception (`Preemption.IsDying` yields `Err`) and the
  hook fails with it.

## Model

| member | source | states |
|---|---|---|
| Settings.Load | dollar_gpu_club/__init__.py:12-18 | Dev mode exactly when `DEV_MODE` is unset or non-empty, and then the fixed dev settings. Otherwise the values of `JOB_ID`, `BUCKET_NAME` and `APP_DOMAIN`, with a `KeyError` for the first one missing, in that order. The checkpoint file is `JOB_ID.h5`. |
| Settings.FalseStringSelectsDevMode | dollar_gpu_club/__init__.py:12 | Any non-empty `DEV_MODE`, such as `False` or `0`, selects dev mode with the fixed dev settings, whatever else the environment holds. |
| Settings.ProdModeNeedsEmptyDevMode | dollar_gpu_club/__init__.py:12 | Prod mode is reached only when `DEV_MODE` is set to the empty string. |
| Settings.ProdCheckpointFile | dollar_gpu_club/__init__.py:18 | In prod the checkpoint file is the job id followed by `.h5`. It starts with the job id and is never equal to it. |
| Checkpoint.CheckpointExists | dollar_gpu_club/__init__.py:92-104 | Dev mode logs and answers true. Prod mode loads the object (bucket, checkpoint file). The answer is true iff the load returned, false iff it raised a 404 ClientError, and any other exception propagates. The process never exits here. |
| Checkpoint.LoadCheckpoint | dollar_gpu_club/__init__.py:80-90 | Runs the existence check first, and propagates its error. A missing checkpoint means nothing more happens. The download happens iff prod and a checkpoint was found. The weights are loaded iff the download also returned, as the last two calls. After a found checkpoint in prod, the restore succeeds iff both the download and the load returned, so a raising call makes it raise. Errors come from the last call. Dev mode makes no storage call. |
| Checkpoint.FoundCheckpointIsAnnounced | dollar_gpu_club/__init__.py:80-90 | A found checkpoint is announced (line 82) before anything else is done with it. In dev mode the restore then only prints that loading is skipped (line 85) and succeeds. In prod the existence call, the announcement and the download come first, in that order. |
| Checkpoint.Compile | dollar_gpu_club/__init__.py:21-38 | The restore runs first. `model.compile` is called iff the restore returned, and a restore error is the result of `compile` unchanged. |
| Checkpoint.NoCheckpointNoRestore | dollar_gpu_club/__init__.py:80-104 | With no checkpoint in prod, the restore makes only the existence call, and `compile` goes straight to `model.compile`. |
| Checkpoint.StorageErrorAbortsCompile | dollar_gpu_club/__init__.py:97-102 | A storage error other than a 404 aborts `compile` after the existence call, with that error. |
| Checkpoint.IntendedDownloadsCheckedObject | dollar_gpu_club/__init__.py:87 | Read as intended, the download fetches the very object whose existence was checked. |
| Checkpoint.AsWrittenDownloadsOtherObject | dollar_gpu_club/__init__.py:87 | As written, the download key (JOB_ID) differs from the key that was checked (`JOB_ID.h5`). |
| Metrics.BuildReport | dollar_gpu_club/__init__.py:110-128 | No report iff `loss` or `acc` is missing or None. The report carries the epoch and both training values. The validation part is present iff `val_loss` or `val_acc` is truthy, and each of its fields is present iff its value is truthy, carrying that value. |
| Metrics.OnEpochEnd | dollar_gpu_club/__init__.py:110-132 | Without a report, nothing happens. With a report there is exactly one effect: a log line in dev mode, or in prod a POST of the report to `APP_DOMAIN/JOB_ID/metrics`. An error comes only from that POST. |
| Metrics.ZeroValidationIsOmitted | dollar_gpu_club/__init__.py:122-128 | A validation loss and accuracy of 0 are both dropped, and then no validation part is sent. |
| Metrics.ZeroTrainingLossIsReported | dollar_gpu_club/__init__.py:111-121 | A training loss of 0 is still reported, because only None is tested there. |
| Preemption.IsDying | dollar_gpu_club/__init__.py:139-142 | Dev mode answers false without a request. Prod makes exactly one GET of the instance-action metadata URL. As written the answer is true iff the status is not 200; read as intended, iff it is 200. A raising GET propagates. |
| Preemption.Evacuate | dollar_gpu_club/__init__.py:147-154 | The evacuation performs a non-empty prefix of: save the weights with overwrite, log, and in prod upload the checkpoint file to its own key and POST the halt, then exit. It halts iff the whole sequence ran, which happens iff every call in the sequence returns. Every call before the last one returned, and a failure comes from the last call. It never returns to training. |
| Preemption.EvacuationPrefix | dollar_gpu_club/__init__.py:147-154 | Every partial evacuation saves exactly once. It exits iff it is complete, and then exactly once, as the last effect. |
| Preemption.DevEvacuationOffline | dollar_gpu_club/__init__.py:148-149 | The dev-mode branch of the evacuation makes no storage or network call. The hook never reaches this branch, because in dev mode `_is_dying` answers false (line 141); `Preemption.OnEpochEnd` states that the dev-mode hook does nothing. |
| Preemption.OnEpochEnd | dollar_gpu_club/__init__.py:144-154 | The hook returns to training iff the probe answered not dying, and then did nothing else. A raising probe makes the hook fail with that exception and do nothing else. When dying, the probe is followed by the evacuation, whose outcome is the hook's, and a halt is the full sequence. In dev mode it does nothing. |
| Preemption.DyingHookSavesOnce | dollar_gpu_club/__init__.py:144-147 | A hook that finds the instance dying never returns to training and saves the weights exactly once. |
| Preemption.HookExitsOnlyWhenHalted | dollar_gpu_club/__init__.py:144-154 | The hook calls `sys.exit()` iff it halts, and then exactly once, as its last effect. |
| Session.CallbackList | dollar_gpu_club/__init__.py:60-61 | The metrics hook, then the pre-emption hook, then the user's callbacks in order. A missing or empty list adds nothing. |
| Session.StartFit | dollar_gpu_club/__init__.py:55-63 | Exactly one start notification (a log line in dev, a POST to `APP_DOMAIN/JOB_ID/start` in prod), then `model.fit` with the callback list. A raising POST stops before `model.fit`. |
| Session.RunHook | dollar_gpu_club/__init__.py:110-154 | Only the pre-emption hook can halt, and a halt ends in exactly one exit. Otherwise there is no exit. |
| Session.HookNeverNotifiesStart | dollar_gpu_club/__init__.py:110-154 | No callback repeats the start notification: the metrics POST and the halt POST go to other URLs, and the dev-mode log lines differ from the start line. |
| Session.HooksNeverNotifyStart | dollar_gpu_club/__init__.py:60-69 | No epoch's callbacks repeat the start notification. |
| Session.RunHooks | dollar_gpu_club/__init__.py:60-69 | The callbacks of one epoch. A halt needs the pre-emption hook in the list and ends in exactly one exit; otherwise nothing exits. |
| Session.HooksContinueExactly | dollar_gpu_club/__init__.py:60-69 | An epoch returns to training iff every callback in the list returns. |
| Session.HooksRunInOrder | dollar_gpu_club/__init__.py:60-69 | The callbacks run in list order: once the first `k` have returned, the epoch's effects are theirs in order, then the rest's. When callback `k` then halts or raises, it is the last to run and its outcome is the epoch's. |
| Session.PackageHooksRunFirst | dollar_gpu_club/__init__.py:60-61 | The metrics hook runs first, and its error ends the epoch. The pre-emption hook runs next, and its halt or error ends the epoch. The user's callbacks run only after both returned. |
| Session.RunEpochs | dollar_gpu_club/__init__.py:63-77 | A halt happens in one of the epochs run and ends the trace with exactly one exit. Otherwise there is no exit, and the start notification never recurs. |
| Session.RunCompletesExactly | dollar_gpu_club/__init__.py:63-77 | Training runs every epoch to the end iff the callbacks of every epoch return. |
| Session.EpochStopEndsRun | dollar_gpu_club/__init__.py:63-77 | The epochs run in order: when the callbacks of the first `k` epochs returned and those of epoch `k` halt or raise, the run ends in epoch `k` with that outcome, and no later epoch runs. |
| Session.Fit | dollar_gpu_club/__init__.py:40-78 | The start notification comes first and occurs exactly once. It is followed by `model.fit` with the callback list and then the epochs, or by nothing when the start POST raises. |
| Session.StopIsFinal | dollar_gpu_club/__init__.py:154 | Once a hook has exited (or raised), later epochs add nothing: the run is the same whatever inputs follow. |
| Session.DevTrainingLogsEveryEpoch | dollar_gpu_club/__init__.py:129-130 | In dev mode with no user callbacks, when every epoch has a loss and an accuracy, training completes every epoch offline, printing exactly one metrics line per epoch, in epoch order. |
| Session.DevEpochLogsOnce | dollar_gpu_club/__init__.py:110-146 | In dev mode, an epoch with a report and no user callbacks prints its one metrics line and does nothing else. |
| Session.NoNoticeHaltsAsWritten | dollar_gpu_club/__init__.py:142 | As written, a prod instance with no termination notice halts at the end of its first epoch. |
| Session.NoNoticeHookHaltsAsWritten | dollar_gpu_club/__init__.py:139-147 | As written, on a healthy prod instance, from the pre-emption hook on, the epoch's effects and outcome are exactly the hook's. That outcome is a halt, so no later callback runs. |
| Session.NoNoticeEpochContinues | dollar_gpu_club/__init__.py:139-146 | Read as intended, no callback stops an epoch that has no notice. |
| Session.NoNoticeCompletesIntended | dollar_gpu_club/__init__.py:139-146 | Read as intended, training with no notice and no raising call completes every epoch and never exits. |
| Resume.HaltUploadsCheckpointFile | dollar_gpu_club/__init__.py:152 | A halting prod hook uploads the checkpoint file to the key of the same name in the job's bucket. |
| Resume.ResumeFailsAsWritten | dollar_gpu_club/__init__.py:80-104 | As written, a restarted job whose storage holds only its uploaded checkpoint finds it, downloads the key JOB_ID, gets a 404 and fails `compile` before `model.compile`. |
| Resume.ResumeRestoresIntended | dollar_gpu_club/__init__.py:80-104 | Read as intended, the same job downloads its checkpoint, loads it, compiles and succeeds. |
| Wrapper.Runtime.CheckpointExists | dollar_gpu_club/__init__.py:92-104 | Emits exactly the effects of `Checkpoint.CheckpointExists` and returns its answer. The process stays alive. |
| Wrapper.Runtime.LoadCheckpoint | dollar_gpu_club/__init__.py:80-90 | Emits exactly the effects of `Checkpoint.LoadCheckpoint` and returns its result. |
| Wrapper.Runtime.Compile | dollar_gpu_club/__init__.py:21-38 | Emits exactly the effects of `Checkpoint.Compile` and returns its result. |
| Wrapper.Runtime.Fit | dollar_gpu_club/__init__.py:55-63 | Emits exactly the effects of `Session.StartFit` and returns the callback list handed to `model.fit`. |
| Wrapper.Runtime.MetricsEpochEnd | dollar_gpu_club/__init__.py:110-132 | Emits exactly the effects of `Metrics.OnEpochEnd`. |
| Wrapper.Runtime.IsDying | dollar_gpu_club/__init__.py:139-142 | Emits exactly the effects of `Preemption.IsDying` and returns its answer. |
| Wrapper.Runtime.PreemptionEpochEnd | dollar_gpu_club/__init__.py:144-154 | Emits exactly the effects of `Preemption.OnEpochEnd`. The process is still running afterwards iff the hook did not halt. |
| Wrapper.Runtime.Evacuate | dollar_gpu_club/__init__.py:147-154 | Emits exactly the effects of `Preemption.Evacuate`. |

## Left out

- Keras itself: the training loop, batches, the `History` result of `model.fit`, the other callback hooks and `stop_training`. `Session.RunEpochs` is only a stand-in that calls `on_epoch_end`.
- The keyword arguments `compile` and `fit` pass through unchanged to Keras. They are not modelled, because the package reads none of them; `initial_epoch` is only forwarded (line 75), and the model uses it as the number of the first epoch.
- The contents of weight files and of S3 objects. The model tracks which object is read or written, not its bytes.
- The form encoding `requests` applies to the `data=` dictionaries. `requests` form-encodes a dictionary value by iterating it, so the metrics POST at line 132 would evidently send only the keys of `training` and `validation` (for example `training=accuracy&training=loss`), and the metric values would not reach the server. This is not executed and not modelled: the model records the report handed to the POST.
- The exact wording of the log lines. Each log line is a distinct message naming the values it prints.
- The status codes of the POST responses, which the source ignores.
- The values `compile` and `fit` return. They return what `model.compile` and `model.fit` return (lines 29 and 63), which are Keras's values and are not modelled.
- Exceptions raised by `model.fit` itself. The call is an effect that is taken to return; exceptions from the callbacks it runs are modelled, and so are exceptions from `model.compile`.
- Metric values that are NaN or infinite. Metrics are reals, and None is a separate value.
- `logs=None` reaching `MetricsCallback.on_epoch_end`, which would raise an AttributeError. Keras always passes a dictionary.
- The creation of the S3 resource at import (line 14), which is assumed to succeed. `ERROR_MSG` (line 19) is built but never used.
- Timeouts and retries of the HTTP calls. A call either returns a status or raises.
- The process exit itself: `sys.exit()` is the `Exit` effect, after which the model performs nothing more.
- The unused `epoch` and `logs` parameters of `FinalCheckpointCallback.on_epoch_end`. The hook reads neither.

## Findings

| source | as written | input that shows it | evidently intended | confidence | as-written member | corrected member |
|---|---|---|---|---|---|---|
| dollar_gpu_club/__init__.py:87 | The restore downloads the S3 key `JOB_ID`, while the existence check (line 97) and the pre-emption upload (line 152) use the key `JOB_ID.h5` | A prod job pre-empted once and restarted: the bucket holds only `JOB_ID.h5`, the existence check succeeds, the download of `JOB_ID` raises a 404 ClientError, and `compile` fails | Download the key `JOB_ID.h5`, so the restarted job resumes from the weights it uploaded | high; not executed | Resume.ResumeFailsAsWritten | Resume.ResumeRestoresIntended |
| dollar_gpu_club/__init__.py:142 | `_is_dying` is true when the metadata status is not 200 | A prod spot instance with no termination notice, where the instance-action endpoint answers 404: the hook saves, uploads, posts the halt and exits after the first epoch | Dying exactly when the status is 200, i.e. a termination notice is scheduled | high; not executed | Session.NoNoticeHaltsAsWritten | Session.NoNoticeCompletesIntended |
