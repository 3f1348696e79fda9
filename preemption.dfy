/**
 * The pre-emption hook, `FinalCheckpointCallback._is_dying` and `on_epoch_end`
 * (dollar_gpu_club/__init__.py lines 139-154). `sys.exit()` is the terminal `Halted` result.
 */
module Preemption {
  import opened Results
  import opened Settings
  import opened Effects

  const MetadataGet := HttpGet(MetadataUrl)

  /**
   * What a metadata status says about the instance. As written, anything but 200 means
   * dying; the endpoint answers 200 only when a termination notice is scheduled, so the
   * intended reading is the opposite.
   */
  predicate NoticeSays(rev: Revision, status: int)
  {
    match rev
    case AsWritten => status != 200
    case Intended => status == 200
  }

  /**
   * `_is_dying`: false in dev mode without any request; in prod one GET of the metadata
   * endpoint, whose status decides, and whose exception propagates.
   */
  function IsDying(cfg: Config, rev: Revision, world: World): (s: Step<Result<bool, Fault>>)
    ensures cfg.dev ==> s == Step([], Ok(false))
    ensures !cfg.dev ==> s.trace == [Invoke(MetadataGet)]
    ensures !cfg.dev && rev == AsWritten && world(MetadataGet).Returned? ==>
      (s.result == Ok(true) <==> world(MetadataGet).status != 200) && s.result.Ok?
    ensures !cfg.dev && rev == Intended && world(MetadataGet).Returned? ==>
      (s.result == Ok(true) <==> world(MetadataGet).status == 200) && s.result.Ok?
    ensures s.result.Err? <==> !cfg.dev && world(MetadataGet).Raised?
    ensures s.result.Err? ==> RaisedByLastCall(s.trace, world, s.result.error)
  {
    if cfg.dev then Step([], Ok(false))
    else
      match world(MetadataGet)
      case Raised(f) => Step([Invoke(MetadataGet)], Err(f))
      case Returned(status) => Step([Invoke(MetadataGet)], Ok(NoticeSays(rev, status)))
  }

  /**
   * Everything the hook does after a notice, in order: save the weights; in dev mode log
   * the skipped upload; in prod upload the file to the key CHECKPOINT_FILE and POST the
   * halt notification; then exit.
   */
  function EvacuationSequence(cfg: Config): seq<Event>
  {
    var ckpt := cfg.CheckpointFile();
    if cfg.dev then [Invoke(SaveWeights(ckpt, true)), Print(SkippingUpload(ckpt)), Exit]
    else [Invoke(SaveWeights(ckpt, true)), Print(Uploading(ckpt)), Invoke(UploadFile(ckpt, cfg.bucket, ckpt)),
          Invoke(HttpPost(cfg.HaltUrl(), EmptyForm)), Exit]
  }

  /**
   * The evacuation runs a non-empty prefix of its sequence: all of it, ending in
   * `sys.exit()`, exactly when every call in it returns; otherwise up to the first call
   * that raises, whose exception propagates.
   */
  function Evacuate(cfg: Config, world: World): (s: Step<HookResult>)
    ensures 0 < |s.trace| && s.trace <= EvacuationSequence(cfg)
    ensures s.result == Halted <==> s.trace == EvacuationSequence(cfg)
    ensures s.result != Continue
    ensures s.result.Failed? ==> RaisedByLastCall(s.trace, world, s.result.fault)
    ensures forall i :: 0 <= i < |s.trace| - 1 && s.trace[i].Invoke? ==> world(s.trace[i].call).Returned?
    ensures s.result == Halted <==> forall e :: e in EvacuationSequence(cfg) && e.Invoke? ==> world(e.call).Returned?
  {
    var ckpt := cfg.CheckpointFile();
    var save := SaveWeights(ckpt, true);
    if world(save).Raised? then Step([Invoke(save)], Failed(world(save).fault))
    else if cfg.dev then Step([Invoke(save), Print(SkippingUpload(ckpt)), Exit], Halted)
    else
      var upload := UploadFile(ckpt, cfg.bucket, ckpt);
      var uploaded := [Invoke(save), Print(Uploading(ckpt)), Invoke(upload)];
      if world(upload).Raised? then Step(uploaded, Failed(world(upload).fault))
      else
        var halt := HttpPost(cfg.HaltUrl(), EmptyForm);
        if world(halt).Raised? then Step(uploaded + [Invoke(halt)], Failed(world(halt).fault))
        else Step(uploaded + [Invoke(halt), Exit], Halted)
  }

  /** Save is the first event of the evacuation and Exit its last; neither occurs elsewhere in it. */
  lemma EvacuationShape(cfg: Config)
    ensures var full := EvacuationSequence(cfg);
      3 <= |full| && full[0] == Invoke(SaveWeights(cfg.CheckpointFile(), true)) && full[|full| - 1] == Exit &&
      (forall i :: 0 < i < |full| ==> full[i] != Invoke(SaveWeights(cfg.CheckpointFile(), true))) &&
      (forall i :: 0 <= i < |full| - 1 ==> full[i] != Exit)
  {
  }

  /**
   * Every non-empty prefix of the evacuation saves the weights exactly once and reaches
   * `sys.exit()` only when complete, then as its last event and only once.
   */
  lemma EvacuationPrefix(cfg: Config, t: seq<Event>)
    requires 0 < |t| && t <= EvacuationSequence(cfg)
    ensures Occurrences(t, Invoke(SaveWeights(cfg.CheckpointFile(), true))) == 1
    ensures Exit in t <==> t == EvacuationSequence(cfg)
    ensures Exit in t ==> Occurrences(t, Exit) == 1 && t[|t| - 1] == Exit
  {
    var full := EvacuationSequence(cfg);
    var save := Invoke(SaveWeights(cfg.CheckpointFile(), true));
    EvacuationShape(cfg);
    OnlyAtHead(t, save);
    if Exit in t {
      var i :| 0 <= i < |t| && t[i] == Exit;
      assert full[i] == Exit;
      assert t == full;
      OnlyAtEnd(t, Exit);
    }
  }

  /** In dev mode the evacuation makes no storage or network call. */
  lemma DevEvacuationOffline(cfg: Config, t: seq<Event>)
    requires cfg.dev && t <= EvacuationSequence(cfg)
    ensures Offline(t)
  {
  }

  /** The probe neither saves nor exits, so it adds nothing to the count of any other event. */
  lemma ProbeCountsNothing(probe: seq<Event>, ev: seq<Event>, e: Event)
    requires probe == [] || probe == [Invoke(MetadataGet)]
    requires e != Invoke(MetadataGet)
    ensures Occurrences(probe + ev, e) == Occurrences(ev, e)
    ensures e in probe + ev <==> e in ev
  {
    OccurrencesConcat(probe, ev, e);
  }

  /**
   * `FinalCheckpointCallback.on_epoch_end`: when not dying, nothing beyond the probe and
   * back to training; when dying, never back to training: one save, then in prod the
   * upload and the halt POST, and `sys.exit()` last.
   */
  function OnEpochEnd(cfg: Config, rev: Revision, world: World): (s: Step<HookResult>)
    ensures IsDying(cfg, rev, world).result == Ok(false) ==> s == Step(IsDying(cfg, rev, world).trace, Continue)
    ensures s.result == Continue <==> IsDying(cfg, rev, world).result == Ok(false)
    ensures IsDying(cfg, rev, world).result == Ok(true) ==>
      s.trace == IsDying(cfg, rev, world).trace + Evacuate(cfg, world).trace
    ensures s.result == Halted ==> s.trace == IsDying(cfg, rev, world).trace + EvacuationSequence(cfg)
    ensures IsDying(cfg, rev, world).result.Err? ==>
      s == Step(IsDying(cfg, rev, world).trace, Failed(IsDying(cfg, rev, world).result.error))
    ensures IsDying(cfg, rev, world).result == Ok(true) ==> s.result == Evacuate(cfg, world).result
    ensures s.result.Failed? ==> RaisedByLastCall(s.trace, world, s.result.fault)
    ensures cfg.dev ==> s == Step([], Continue)
  {
    var probe := IsDying(cfg, rev, world);
    match probe.result
    case Err(f) => Step(probe.trace, Failed(f))
    case Ok(false) => Step(probe.trace, Continue)
    case Ok(true) =>
      var ev := Evacuate(cfg, world);
      Step(probe.trace + ev.trace, ev.result)
  }

  /**
   * A hook that finds the instance dying saves the weights exactly once and never returns
   * to training; it ends in `sys.exit()` exactly when it halts, and exits at most once.
   */
  lemma DyingHookSavesOnce(cfg: Config, rev: Revision, world: World)
    requires IsDying(cfg, rev, world).result == Ok(true)
    ensures OnEpochEnd(cfg, rev, world).result != Continue
    ensures Occurrences(OnEpochEnd(cfg, rev, world).trace, Invoke(SaveWeights(cfg.CheckpointFile(), true))) == 1
  {
    var probe, ev := IsDying(cfg, rev, world), Evacuate(cfg, world);
    EvacuationPrefix(cfg, ev.trace);
    ProbeCountsNothing(probe.trace, ev.trace, Invoke(SaveWeights(cfg.CheckpointFile(), true)));
  }

  /** The hook calls `sys.exit()` only when it halts, then as its last event and only once. */
  lemma HookExitsOnlyWhenHalted(cfg: Config, rev: Revision, world: World)
    ensures var s := OnEpochEnd(cfg, rev, world);
      (Exit in s.trace <==> s.result == Halted) &&
      (s.result == Halted ==> s.trace[|s.trace| - 1] == Exit && Occurrences(s.trace, Exit) == 1)
  {
    var probe := IsDying(cfg, rev, world);
    if probe.result == Ok(true) {
      var ev := Evacuate(cfg, world);
      EvacuationPrefix(cfg, ev.trace);
      ProbeCountsNothing(probe.trace, ev.trace, Exit);
    }
  }
}
