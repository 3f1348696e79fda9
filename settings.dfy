/**
 * The module-level configuration of `dollar_gpu_club/__init__.py` (lines 12-19),
 * made into an explicit record read once from the process environment.
 */
module Settings {
  import opened Results

  type Environ = map<string, string>

  /** The exception raised by `os.environ[name]` when `name` is unset. */
  datatype ConfigError = KeyError(name: string)

  /** The configuration the wrapper runs with: the dev flag and the three prod settings. */
  datatype Config = Config(dev: bool, jobId: string, bucket: string, appDomain: string)
  {
    /** The local weights file, also used as a storage key by the existence check and the upload. */
    function CheckpointFile(): string
    {
      if dev then "~/dev.h5" else jobId + ".h5"
    }

    function StartUrl(): string { appDomain + "/" + jobId + "/start" }

    function MetricsUrl(): string { appDomain + "/" + jobId + "/metrics" }

    function HaltUrl(): string { appDomain + "/" + jobId + "/halt" }
  }

  /** The spot-instance termination notice endpoint polled by the pre-emption hook. */
  const MetadataUrl := "http://169.254.169.254/latest/meta-data/spot/instance-action"

  const DevConfig := Config(true, "dev_job_id", "dev_bucket", "http://localhost:8080")

  /**
   * `os.environ.get('DEV_MODE', True)` taken as a condition: the default `True` when the
   * variable is unset, otherwise the truthiness of a string, which is false only for "".
   */
  predicate DevMode(env: Environ)
  {
    "DEV_MODE" !in env || env["DEV_MODE"] != ""
  }

  /**
   * Evaluating lines 12-18 in order: dev mode takes fixed values; prod mode reads
   * JOB_ID, BUCKET_NAME and APP_DOMAIN in that order, and the first one missing raises.
   */
  function Load(env: Environ): (r: Result<Config, ConfigError>)
    ensures r.Ok? ==> r.value.dev == DevMode(env)
    ensures DevMode(env) ==> r == Ok(DevConfig)
    ensures !DevMode(env) ==>
      (r.Ok? <==> "JOB_ID" in env && "BUCKET_NAME" in env && "APP_DOMAIN" in env)
    ensures !DevMode(env) && r.Ok? ==>
      r.value.jobId == env["JOB_ID"] && r.value.bucket == env["BUCKET_NAME"] &&
      r.value.appDomain == env["APP_DOMAIN"]
    ensures !DevMode(env) && "JOB_ID" !in env ==> r == Err(KeyError("JOB_ID"))
    ensures !DevMode(env) && "JOB_ID" in env && "BUCKET_NAME" !in env ==>
      r == Err(KeyError("BUCKET_NAME"))
    ensures !DevMode(env) && "JOB_ID" in env && "BUCKET_NAME" in env && "APP_DOMAIN" !in env ==>
      r == Err(KeyError("APP_DOMAIN"))
    ensures r.Err? ==> r.error.name !in env
  {
    if DevMode(env) then Ok(DevConfig)
    else if "JOB_ID" !in env then Err(KeyError("JOB_ID"))
    else if "BUCKET_NAME" !in env then Err(KeyError("BUCKET_NAME"))
    else if "APP_DOMAIN" !in env then Err(KeyError("APP_DOMAIN"))
    else Ok(Config(false, env["JOB_ID"], env["BUCKET_NAME"], env["APP_DOMAIN"]))
  }

  /**
   * Setting DEV_MODE to any non-empty string, "False" and "0" included, still selects dev
   * mode with its fixed settings, whatever else the environment holds.
   */
  lemma FalseStringSelectsDevMode(env: Environ)
    requires "DEV_MODE" in env && env["DEV_MODE"] != ""
    ensures Load(env) == Ok(DevConfig)
  {
  }

  /** Only an empty DEV_MODE selects prod mode. */
  lemma ProdModeNeedsEmptyDevMode(env: Environ)
    requires Load(env).Ok? && !Load(env).value.dev
    ensures "DEV_MODE" in env && env["DEV_MODE"] == ""
  {
  }

  /**
   * In prod the checkpoint file is the job id followed by ".h5", so it is never the
   * job id itself: the two storage keys used by the source never coincide.
   */
  lemma ProdCheckpointFile(cfg: Config)
    requires !cfg.dev
    ensures cfg.CheckpointFile() == cfg.jobId + ".h5"
    ensures cfg.CheckpointFile()[..|cfg.jobId|] == cfg.jobId
    ensures cfg.CheckpointFile() != cfg.jobId
  {
    assert |cfg.CheckpointFile()| == |cfg.jobId| + 3;
  }
}
