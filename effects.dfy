/**
 * The collaborators of the wrapper, seen from outside: every call into S3, HTTP, Keras
 * or user code is an event in a trace, and what it returns or raises is read from an
 * oracle, the `World`. Console lines are events too; `sys.exit()` is the `Exit` event.
 */
module Effects {
  import opened Results

  /** A value read from a Keras epoch log: `None`, or a number. NaN and infinities are not modelled. */
  datatype Value = PyNone | Num(x: real)

  /** Python truthiness of a log value: `None` and zero are false. */
  predicate Truthy(v: Value)
  {
    v.Num? && v.x != 0.0
  }

  /** The `logs` dict Keras passes to `on_epoch_end`. */
  type Logs = map<string, Value>

  /** `logs.get(key)`: `None` when the key is absent. */
  function Get(logs: Logs, key: string): Value
  {
    if key in logs then logs[key] else PyNone
  }

  /** The per-epoch metrics report: `{epoch, training{accuracy, loss}, validation?{loss?, accuracy?}}`. */
  datatype Training = Training(accuracy: real, loss: real)
  datatype Validation = Validation(loss: Option<real>, accuracy: Option<real>)
  datatype Report = Report(epoch: int, training: Training, validation: Option<Validation>)

  /** The callbacks handed to `model.fit`: the two of this package, or one of the user's. */
  datatype Callback = MetricsHook | PreemptionHook | UserHook(id: nat)

  /** The `data=` argument of a POST. */
  datatype Body = EmptyForm | MetricsForm(report: Report)

  /** The exceptions collaborators raise: botocore's ClientError carries an error code. */
  datatype Fault = ClientError(code: string) | OtherError(name: string)

  const NotFound := ClientError("404")

  datatype Call =
    | ObjectLoad(bucket: string, key: string)                       // s3.Object(bucket, key).load()
    | DownloadFile(bucket: string, key: string, filename: string)   // s3.Bucket(bucket).download_file(key, filename)
    | UploadFile(filename: string, bucket: string, key: string)     // s3.meta.client.upload_file(filename, bucket, key)
    | LoadWeights(filepath: string)                                 // model.load_weights(filepath)
    | SaveWeights(filepath: string, overwrite: bool)                // model.save_weights(filepath, overwrite)
    | ModelCompile                                                  // model.compile(...)
    | ModelFit(callbacks: seq<Callback>)                            // model.fit(..., callbacks=...)
    | HttpGet(url: string)                                          // requests.get(url)
    | HttpPost(url: string, body: Body)                             // requests.post(url, data=body)
    | UserEpochEnd(id: nat, epoch: int)                             // a user callback's on_epoch_end

  /** The console lines the wrapper prints, by kind (their wording is not modelled). */
  datatype Message =
    | SkippingStartPost(url: string)
    | CheckpointFound
    | SkippingLoad(filename: string)
    | SkippingExistenceCheck
    | SkippingMetricsPost(report: Report)
    | SkippingUpload(filename: string)
    | Uploading(filename: string)

  datatype Event = Invoke(call: Call) | Print(msg: Message) | Exit

  /** What a call returns (`status` matters only for HTTP calls) or raises. */
  datatype Reply = Returned(status: int) | Raised(fault: Fault)

  /** The collaborators' answers at one moment. */
  type World = Call -> Reply

  /** What an operation did (its events, in order) and how it ended. */
  datatype Step<+T> = Step(trace: seq<Event>, result: T)

  /** How an `on_epoch_end` hook ends: back to the training loop, in `sys.exit()`, or raising. */
  datatype HookResult = Continue | Halted | Failed(fault: Fault)

  /**
   * Which reading of the source a member follows where the source is evidently wrong:
   * the code as written, or the behaviour the code evidently intends.
   */
  datatype Revision = AsWritten | Intended

  /** The operation ended by propagating `f`, raised by the last call it made. */
  predicate RaisedByLastCall(trace: seq<Event>, world: World, f: Fault)
  {
    |trace| > 0 && trace[|trace| - 1].Invoke? && world(trace[|trace| - 1].call) == Raised(f)
  }

  /** A call that leaves the machine: object storage or HTTP. */
  predicate Remote(c: Call)
  {
    c.ObjectLoad? || c.DownloadFile? || c.UploadFile? || c.HttpGet? || c.HttpPost?
  }

  /** The trace makes no storage or network call. */
  predicate Offline(trace: seq<Event>)
  {
    forall i :: 0 <= i < |trace| ==> !(trace[i].Invoke? && Remote(trace[i].call))
  }

  /** How many times `e` occurs in `trace`. */
  function Occurrences(trace: seq<Event>, e: Event): (n: nat)
    ensures n <= |trace|
    ensures n == 0 <==> e !in trace
  {
    if trace == [] then 0
    else (if trace[0] == e then 1 else 0) + Occurrences(trace[1..], e)
  }

  /** Counting distributes over concatenation. */
  lemma {:induction false} OccurrencesConcat(a: seq<Event>, b: seq<Event>, e: Event)
    ensures Occurrences(a + b, e) == Occurrences(a, e) + Occurrences(b, e)
  {
    if a == [] {
      assert a + b == b;
    } else {
      assert (a + b)[0] == a[0];
      assert (a + b)[1..] == a[1..] + b;
      OccurrencesConcat(a[1..], b, e);
    }
  }

  /** An event found at the head of a trace and nowhere else occurs once. */
  lemma OnlyAtHead(t: seq<Event>, e: Event)
    requires 0 < |t| && t[0] == e
    requires forall i :: 0 < i < |t| ==> t[i] != e
    ensures Occurrences(t, e) == 1
  {
    assert e !in t[1..] by {
      forall i | 0 <= i < |t[1..]| ensures t[1..][i] != e {
        assert t[1..][i] == t[i + 1];
      }
    }
  }

  /** An event found at the end of a trace and nowhere else occurs once. */
  lemma OnlyAtEnd(t: seq<Event>, e: Event)
    requires 0 < |t| && t[|t| - 1] == e
    requires forall i :: 0 <= i < |t| - 1 ==> t[i] != e
    ensures Occurrences(t, e) == 1
  {
    var body := t[..|t| - 1];
    assert e !in body;
    assert t == body + [e];
    OccurrencesConcat(body, [e], e);
  }
}
