/**
 * A job pre-empted once and started again: what the pre-emption hook uploads
 * (dollar_gpu_club/__init__.py line 152) against what the next `compile` looks for
 * (lines 87 and 97). Storage is a set of (bucket, key) objects; every other
 * collaborator returns normally.
 */
module Resume {
  import opened Results
  import opened Settings
  import opened Effects
  import Checkpoint
  import Preemption

  type Object = (string, string)

  /** S3 holding exactly `objects`: a load or download of anything else raises the 404 ClientError. */
  function StoreWorld(objects: set<Object>): World
  {
    (c: Call) =>
      match c
      case ObjectLoad(b, k) => if (b, k) in objects then Returned(200) else Raised(NotFound)
      case DownloadFile(b, k, _) => if (b, k) in objects then Returned(200) else Raised(NotFound)
      case _ => Returned(200)
  }

  /** The object a halting prod hook leaves in storage is the checkpoint file under the job's bucket. */
  lemma HaltUploadsCheckpointFile(cfg: Config, rev: Revision, world: World)
    requires !cfg.dev && Preemption.OnEpochEnd(cfg, rev, world).result == Halted
    ensures Invoke(UploadFile(cfg.CheckpointFile(), cfg.bucket, cfg.CheckpointFile())) in
      Preemption.OnEpochEnd(cfg, rev, world).trace
  {
    var probe := Preemption.IsDying(cfg, rev, world).trace;
    var t := Preemption.OnEpochEnd(cfg, rev, world).trace;
    assert t == probe + Preemption.EvacuationSequence(cfg);
    assert t[|probe| + 2] == Invoke(UploadFile(cfg.CheckpointFile(), cfg.bucket, cfg.CheckpointFile()));
  }

  /**
   * As written, a job restarted after a pre-emption, with only the uploaded checkpoint in
   * storage, finds the checkpoint, then downloads the key JOB_ID, which is not there:
   * the 404 ClientError is re-raised and `compile` fails before `model.compile`.
   */
  lemma ResumeFailsAsWritten(cfg: Config)
    requires !cfg.dev
    ensures var store := StoreWorld({(cfg.bucket, cfg.CheckpointFile())});
      Checkpoint.Compile(cfg, AsWritten, store) ==
        Step([Invoke(Checkpoint.ExistenceCall(cfg)), Print(CheckpointFound),
              Invoke(DownloadFile(cfg.bucket, cfg.jobId, cfg.CheckpointFile()))], Err(NotFound))
  {
    ProdCheckpointFile(cfg);
    var store := StoreWorld({(cfg.bucket, cfg.CheckpointFile())});
    assert store(Checkpoint.ExistenceCall(cfg)) == Returned(200);
    assert (cfg.bucket, cfg.jobId) != (cfg.bucket, cfg.CheckpointFile());
    assert store(Checkpoint.DownloadCall(cfg, AsWritten)) == Raised(NotFound);
  }

  /**
   * Read as intended, a job restarted with the uploaded checkpoint in storage (beside any
   * other objects) downloads that object to the checkpoint file, loads it, and compiles.
   */
  lemma ResumeRestoresIntended(cfg: Config, others: set<Object>)
    requires !cfg.dev
    ensures var store := StoreWorld({(cfg.bucket, cfg.CheckpointFile())} + others);
      Checkpoint.Compile(cfg, Intended, store) ==
        Step([Invoke(Checkpoint.ExistenceCall(cfg)), Print(CheckpointFound),
              Invoke(DownloadFile(cfg.bucket, cfg.CheckpointFile(), cfg.CheckpointFile())),
              Invoke(LoadWeights(cfg.CheckpointFile())), Invoke(ModelCompile)], Ok(()))
  {
    var store := StoreWorld({(cfg.bucket, cfg.CheckpointFile())} + others);
    assert store(Checkpoint.ExistenceCall(cfg)) == Returned(200);
    assert store(Checkpoint.DownloadCall(cfg, Intended)) == Returned(200);
  }
}
