/**
 * Resuming from a remote checkpoint before compiling: `_checkpoint_exists`,
 * `_load_checkpoint` and `compile` (dollar_gpu_club/__init__.py lines 21-38, 80-104).
 */
module Checkpoint {
  import opened Results
  import opened Settings
  import opened Effects

  /** The existence check: `s3.Object(BUCKET_NAME, CHECKPOINT_FILE).load()`. */
  function ExistenceCall(cfg: Config): Call
  {
    ObjectLoad(cfg.bucket, cfg.CheckpointFile())
  }

  /**
   * The storage key the restore downloads: JOB_ID as written, while the existence
   * check and the upload use the checkpoint file; the intended key is the checkpoint file.
   */
  function DownloadKey(cfg: Config, rev: Revision): string
  {
    match rev
    case AsWritten => cfg.jobId
    case Intended => cfg.CheckpointFile()
  }

  /** `s3.Bucket(BUCKET_NAME).download_file(key, CHECKPOINT_FILE)`. */
  function DownloadCall(cfg: Config, rev: Revision): Call
  {
    DownloadFile(cfg.bucket, DownloadKey(cfg, rev), cfg.CheckpointFile())
  }

  /**
   * `_checkpoint_exists`: dev mode skips storage and answers true; prod mode loads the
   * object and maps success to true, a ClientError with code "404" to false, and
   * propagates every other exception unchanged.
   */
  function CheckpointExists(cfg: Config, world: World): (s: Step<Result<bool, Fault>>)
    ensures cfg.dev ==> s == Step([Print(SkippingExistenceCheck)], Ok(true))
    ensures !cfg.dev ==> s.trace == [Invoke(ExistenceCall(cfg))]
    ensures !cfg.dev ==> (s.result == Ok(true) <==> world(ExistenceCall(cfg)).Returned?)
    ensures !cfg.dev ==> (s.result == Ok(false) <==> world(ExistenceCall(cfg)) == Raised(NotFound))
    ensures !cfg.dev ==>
      (s.result.Err? <==> world(ExistenceCall(cfg)).Raised? && world(ExistenceCall(cfg)).fault != NotFound)
    ensures s.result.Err? ==> RaisedByLastCall(s.trace, world, s.result.error)
    ensures Exit !in s.trace
  {
    if cfg.dev then Step([Print(SkippingExistenceCheck)], Ok(true))
    else
      var verdict := match world(ExistenceCall(cfg))
        case Returned(_) => Ok(true)
        case Raised(f) => if f == NotFound then Ok(false) else Err(f);
      Step([Invoke(ExistenceCall(cfg))], verdict)
  }

  /**
   * `_load_checkpoint`: after the existence check reports a checkpoint, dev mode only
   * logs; prod mode downloads the object to the checkpoint file and then loads the
   * weights from it. Every exception propagates.
   */
  function LoadCheckpoint(cfg: Config, rev: Revision, world: World): (s: Step<Result<(), Fault>>)
    ensures CheckpointExists(cfg, world).trace <= s.trace
    ensures CheckpointExists(cfg, world).result.Err? ==>
      s == Step(CheckpointExists(cfg, world).trace, Err(CheckpointExists(cfg, world).result.error))
    ensures CheckpointExists(cfg, world).result == Ok(false) ==> s == Step(CheckpointExists(cfg, world).trace, Ok(()))
    ensures Invoke(DownloadCall(cfg, rev)) in s.trace <==> !cfg.dev && CheckpointExists(cfg, world).result == Ok(true)
    ensures Invoke(LoadWeights(cfg.CheckpointFile())) in s.trace <==>
      !cfg.dev && CheckpointExists(cfg, world).result == Ok(true) && world(DownloadCall(cfg, rev)).Returned?
    ensures Invoke(LoadWeights(cfg.CheckpointFile())) in s.trace ==>
      s.trace[|s.trace| - 2..] == [Invoke(DownloadCall(cfg, rev)), Invoke(LoadWeights(cfg.CheckpointFile()))]
    ensures !cfg.dev && CheckpointExists(cfg, world).result == Ok(true) ==>
      (s.result.Ok? <==> world(DownloadCall(cfg, rev)).Returned? && world(LoadWeights(cfg.CheckpointFile())).Returned?)
    ensures s.result.Err? ==> RaisedByLastCall(s.trace, world, s.result.error)
    ensures cfg.dev ==> Offline(s.trace) && s.result.Ok?
    ensures Invoke(ModelCompile) !in s.trace && Exit !in s.trace
  {
    var e := CheckpointExists(cfg, world);
    match e.result
    case Err(f) => Step(e.trace, Err(f))
    case Ok(false) => Step(e.trace, Ok(()))
    case Ok(true) =>
      var found := e.trace + [Print(CheckpointFound)];
      if cfg.dev then Step(found + [Print(SkippingLoad(cfg.CheckpointFile()))], Ok(()))
      else
        var downloaded := found + [Invoke(DownloadCall(cfg, rev))];
        match world(DownloadCall(cfg, rev))
        case Raised(f) => Step(downloaded, Err(f))
        case Returned(_) =>
          var loaded := downloaded + [Invoke(LoadWeights(cfg.CheckpointFile()))];
          match world(LoadWeights(cfg.CheckpointFile()))
          case Raised(f) => Step(loaded, Err(f))
          case Returned(_) => Step(loaded, Ok(()))
  }

  /**
   * A found checkpoint is announced before anything else happens to it: in dev mode the
   * restore then only logs that loading is skipped; in prod the download follows.
   */
  lemma FoundCheckpointIsAnnounced(cfg: Config, rev: Revision, world: World)
    requires CheckpointExists(cfg, world).result == Ok(true)
    ensures cfg.dev ==>
      LoadCheckpoint(cfg, rev, world) ==
        Step([Print(SkippingExistenceCheck), Print(CheckpointFound), Print(SkippingLoad(cfg.CheckpointFile()))], Ok(()))
    ensures !cfg.dev ==>
      3 <= |LoadCheckpoint(cfg, rev, world).trace| &&
      LoadCheckpoint(cfg, rev, world).trace[..3] ==
        [Invoke(ExistenceCall(cfg)), Print(CheckpointFound), Invoke(DownloadCall(cfg, rev))]
  {
  }

  /**
   * `compile`: the restore runs first; `model.compile` is called only when the restore
   * returned, and a restore exception reaches the caller instead.
   */
  function Compile(cfg: Config, rev: Revision, world: World): (s: Step<Result<(), Fault>>)
    ensures LoadCheckpoint(cfg, rev, world).trace <= s.trace
    ensures Invoke(ModelCompile) in s.trace <==> LoadCheckpoint(cfg, rev, world).result.Ok?
    ensures LoadCheckpoint(cfg, rev, world).result.Err? ==> s == LoadCheckpoint(cfg, rev, world)
    ensures LoadCheckpoint(cfg, rev, world).result.Ok? ==>
      s.trace == LoadCheckpoint(cfg, rev, world).trace + [Invoke(ModelCompile)] &&
      (s.result.Ok? <==> world(ModelCompile).Returned?)
    ensures s.result.Err? ==> RaisedByLastCall(s.trace, world, s.result.error)
    ensures Exit !in s.trace
  {
    var restore := LoadCheckpoint(cfg, rev, world);
    if restore.result.Err? then restore
    else
      var t := restore.trace + [Invoke(ModelCompile)];
      match world(ModelCompile)
      case Raised(f) => Step(t, Err(f))
      case Returned(_) => Step(t, Ok(()))
  }

  /** A restore on a job with no checkpoint leaves the model alone: no download, no load. */
  lemma NoCheckpointNoRestore(cfg: Config, rev: Revision, world: World)
    requires !cfg.dev && world(ExistenceCall(cfg)) == Raised(NotFound)
    ensures LoadCheckpoint(cfg, rev, world) == Step([Invoke(ExistenceCall(cfg))], Ok(()))
    ensures Compile(cfg, rev, world).trace == [Invoke(ExistenceCall(cfg)), Invoke(ModelCompile)]
  {
  }

  /** A storage error other than "not found" stops `compile` before `model.compile`. */
  lemma StorageErrorAbortsCompile(cfg: Config, rev: Revision, world: World, f: Fault)
    requires !cfg.dev && world(ExistenceCall(cfg)) == Raised(f) && f != NotFound
    ensures Compile(cfg, rev, world) == Step([Invoke(ExistenceCall(cfg))], Err(f))
  {
  }

  /** Read as intended, the restore downloads exactly the object whose existence it checked. */
  lemma IntendedDownloadsCheckedObject(cfg: Config)
    requires !cfg.dev
    ensures DownloadCall(cfg, Intended).bucket == ExistenceCall(cfg).bucket
    ensures DownloadCall(cfg, Intended).key == ExistenceCall(cfg).key
  {
  }

  /** As written, the restore downloads an object other than the one whose existence it checked. */
  lemma AsWrittenDownloadsOtherObject(cfg: Config)
    requires !cfg.dev
    ensures DownloadCall(cfg, AsWritten).key != ExistenceCall(cfg).key
  {
    ProdCheckpointFile(cfg);
  }
}
