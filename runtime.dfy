/**
 * The package as it runs: the configuration fixed at import and the effects produced so
 * far, in order. Each method performs the steps of one Python function of
 * dollar_gpu_club/__init__.py, appending its effects one by one, and is proved to do
 * exactly what the function of the same name in Checkpoint, Metrics, Preemption or
 * Session describes.
 */
module Wrapper {
  import opened Results
  import opened Settings
  import opened Effects
  import Checkpoint
  import Metrics
  import Preemption
  import Session

  class Runtime {
    const cfg: Config
    const rev: Revision
    /** Every effect so far; `Exit` ends the process, so nothing may follow it. */
    var trace: seq<Event>

    /** The process is still alive: `sys.exit()` has not been called. */
    ghost predicate Running()
      reads this
    {
      Exit !in trace
    }

    constructor (cfg: Config, rev: Revision)
      ensures this.cfg == cfg && this.rev == rev
      ensures trace == [] && Running()
    {
      this.cfg := cfg;
      this.rev := rev;
      trace := [];
    }

    /** Appends one effect; nothing is emitted once the process has exited. */
    method Emit(e: Event)
      requires Running()
      modifies this
      ensures trace == old(trace) + [e]
      ensures Running() <==> e != Exit
    {
      trace := trace + [e];
    }

    /** `_checkpoint_exists`. */
    method CheckpointExists(world: World) returns (r: Result<bool, Fault>)
      requires Running()
      modifies this
      ensures trace == old(trace) + Checkpoint.CheckpointExists(cfg, world).trace
      ensures r == Checkpoint.CheckpointExists(cfg, world).result
      ensures Running()
    {
      if cfg.dev {
        Emit(Print(SkippingExistenceCheck));
        return Ok(true);
      }
      var call := Checkpoint.ExistenceCall(cfg);
      Emit(Invoke(call));
      match world(call) {
        case Returned(_) =>
          r := Ok(true);
        case Raised(f) =>
          r := if f == NotFound then Ok(false) else Err(f);
      }
    }

    /** `_load_checkpoint`. */
    method LoadCheckpoint(world: World) returns (r: Result<(), Fault>)
      requires Running()
      modifies this
      ensures trace == old(trace) + Checkpoint.LoadCheckpoint(cfg, rev, world).trace
      ensures r == Checkpoint.LoadCheckpoint(cfg, rev, world).result
      ensures Running()
    {
      ghost var spec := Checkpoint.LoadCheckpoint(cfg, rev, world);
      ghost var start := trace;
      var found := CheckpointExists(world);
      ghost var probe := trace;
      if found.Err? {
        return Err(found.error);
      }
      if !found.value {
        return Ok(());
      }
      Emit(Print(CheckpointFound));
      if cfg.dev {
        Emit(Print(SkippingLoad(cfg.CheckpointFile())));
        return Ok(());
      }
      var download := Checkpoint.DownloadCall(cfg, rev);
      Emit(Invoke(download));
      if world(download).Raised? {
        return Err(world(download).fault);
      }
      var load := LoadWeights(cfg.CheckpointFile());
      Emit(Invoke(load));
      assert trace == start + spec.trace by {
        assert trace == probe + [Print(CheckpointFound), Invoke(download), Invoke(load)];
      }
      r := if world(load).Raised? then Err(world(load).fault) else Ok(());
    }

    /** `compile`. */
    method Compile(world: World) returns (r: Result<(), Fault>)
      requires Running()
      modifies this
      ensures trace == old(trace) + Checkpoint.Compile(cfg, rev, world).trace
      ensures r == Checkpoint.Compile(cfg, rev, world).result
      ensures Running()
    {
      r := LoadCheckpoint(world);
      if r.Ok? {
        Emit(Invoke(ModelCompile));
        r := if world(ModelCompile).Raised? then Err(world(ModelCompile).fault) else Ok(());
      }
    }

    /** `fit` up to the hand-over to Keras: the start notification, then `model.fit` with the callback list. */
    method Fit(world: World, user: Option<seq<Callback>>) returns (r: Result<seq<Callback>, Fault>)
      requires Running()
      modifies this
      ensures trace == old(trace) + Session.StartFit(cfg, world, user).trace
      ensures r == Session.StartFit(cfg, world, user).result
      ensures Running()
    {
      if cfg.dev {
        Emit(Print(SkippingStartPost(cfg.StartUrl())));
      } else {
        var post := HttpPost(cfg.StartUrl(), EmptyForm);
        Emit(Invoke(post));
        if world(post).Raised? {
          return Err(world(post).fault);
        }
      }
      var cbs := [MetricsHook, PreemptionHook];
      if user.Some? && user.value != [] {
        cbs := cbs + user.value;
      }
      Emit(Invoke(ModelFit(cbs)));
      r := Ok(cbs);
    }

    /** `MetricsCallback.on_epoch_end`. */
    method MetricsEpochEnd(world: World, epoch: int, logs: Logs) returns (r: Result<(), Fault>)
      requires Running()
      modifies this
      ensures trace == old(trace) + Metrics.OnEpochEnd(cfg, world, epoch, logs).trace
      ensures r == Metrics.OnEpochEnd(cfg, world, epoch, logs).result
      ensures Running()
    {
      var report := Metrics.BuildReport(epoch, logs);
      if report.None? {
        return Ok(());
      }
      if cfg.dev {
        Emit(Print(SkippingMetricsPost(report.value)));
        return Ok(());
      }
      var post := HttpPost(cfg.MetricsUrl(), MetricsForm(report.value));
      Emit(Invoke(post));
      r := if world(post).Raised? then Err(world(post).fault) else Ok(());
    }

    /** `FinalCheckpointCallback._is_dying`. */
    method IsDying(world: World) returns (r: Result<bool, Fault>)
      requires Running()
      modifies this
      ensures trace == old(trace) + Preemption.IsDying(cfg, rev, world).trace
      ensures r == Preemption.IsDying(cfg, rev, world).result
      ensures Running()
    {
      if cfg.dev {
        return Ok(false);
      }
      Emit(Invoke(Preemption.MetadataGet));
      match world(Preemption.MetadataGet) {
        case Raised(f) =>
          r := Err(f);
        case Returned(status) =>
          r := Ok(Preemption.NoticeSays(rev, status));
      }
    }

    /**
     * `FinalCheckpointCallback.on_epoch_end`; `sys.exit()` appends `Exit`, after which the
     * process is gone.
     */
    method PreemptionEpochEnd(world: World) returns (r: HookResult)
      requires Running()
      modifies this
      ensures trace == old(trace) + Preemption.OnEpochEnd(cfg, rev, world).trace
      ensures r == Preemption.OnEpochEnd(cfg, rev, world).result
      ensures Running() <==> r != Halted
    {
      var dying := IsDying(world);
      if dying.Err? {
        r := Failed(dying.error);
      } else if !dying.value {
        r := Continue;
      } else {
        r := Evacuate(world);
      }
      Preemption.HookExitsOnlyWhenHalted(cfg, rev, world);
      assert Exit in trace <==> Exit in Preemption.OnEpochEnd(cfg, rev, world).trace;
    }

    /** Lines 147-154: save, then upload and halt POST in prod, then `sys.exit()`. */
    method Evacuate(world: World) returns (r: HookResult)
      requires Running()
      modifies this
      ensures trace == old(trace) + Preemption.Evacuate(cfg, world).trace
      ensures r == Preemption.Evacuate(cfg, world).result
    {
      ghost var start := trace;
      var ckpt := cfg.CheckpointFile();
      var save := SaveWeights(ckpt, true);
      Emit(Invoke(save));
      if world(save).Raised? {
        return Failed(world(save).fault);
      }
      if cfg.dev {
        Emit(Print(SkippingUpload(ckpt)));
        Emit(Exit);
        assert trace == start + [Invoke(save), Print(SkippingUpload(ckpt)), Exit];
        return Halted;
      }
      Emit(Print(Uploading(ckpt)));
      var upload := UploadFile(ckpt, cfg.bucket, ckpt);
      Emit(Invoke(upload));
      ghost var uploaded := [Invoke(save), Print(Uploading(ckpt)), Invoke(upload)];
      assert trace == start + uploaded;
      if world(upload).Raised? {
        return Failed(world(upload).fault);
      }
      var halt := HttpPost(cfg.HaltUrl(), EmptyForm);
      Emit(Invoke(halt));
      assert trace == start + (uploaded + [Invoke(halt)]);
      if world(halt).Raised? {
        return Failed(world(halt).fault);
      }
      Emit(Exit);
      assert trace == start + (uploaded + [Invoke(halt), Exit]);
      r := Halted;
    }
  }
}
