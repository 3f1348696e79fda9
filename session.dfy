/**
 * `fit` (dollar_gpu_club/__init__.py lines 40-78) and how the hooks it registers run.
 * The epoch loop itself belongs to Keras and is not in the source: `RunEpochs` stands in
 * for it only as far as the hooks need, calling each registered callback's
 * `on_epoch_end` in list order at the end of every epoch and stopping when one of them
 * raises or exits.
 */
module Session {
  import opened Results
  import opened Settings
  import opened Effects
  import Metrics
  import Preemption

  /** The one notification `fit` makes before training: the log line in dev mode, the start POST in prod. */
  function StartNotification(cfg: Config): Event
  {
    if cfg.dev then Print(SkippingStartPost(cfg.StartUrl()))
    else Invoke(HttpPost(cfg.StartUrl(), EmptyForm))
  }

  /**
   * The callback list `fit` hands to Keras: the metrics hook, the pre-emption hook, then
   * the user's callbacks in their order; a missing or empty user list adds nothing.
   */
  function CallbackList(user: Option<seq<Callback>>): (cbs: seq<Callback>)
    ensures cbs == [MetricsHook, PreemptionHook] + (if user.Some? then user.value else [])
  {
    var cbs := [MetricsHook, PreemptionHook];
    if user.Some? && user.value != [] then cbs + user.value else cbs
  }

  /**
   * The part of `fit` before training: exactly one start notification, then `model.fit`
   * with the callback list; a raising start POST stops it before `model.fit`.
   */
  function StartFit(cfg: Config, world: World, user: Option<seq<Callback>>): (s: Step<Result<seq<Callback>, Fault>>)
    ensures 0 < |s.trace| && s.trace[0] == StartNotification(cfg)
    ensures s.result.Ok? ==>
      s.trace == [StartNotification(cfg), Invoke(ModelFit(CallbackList(user)))] &&
      s.result.value == CallbackList(user)
    ensures s.result.Err? <==> !cfg.dev && world(HttpPost(cfg.StartUrl(), EmptyForm)).Raised?
    ensures s.result.Err? ==> s.trace == [StartNotification(cfg)] && RaisedByLastCall(s.trace, world, s.result.error)
    ensures Exit !in s.trace
  {
    var cbs := CallbackList(user);
    if cfg.dev then Step([StartNotification(cfg), Invoke(ModelFit(cbs))], Ok(cbs))
    else
      var post := HttpPost(cfg.StartUrl(), EmptyForm);
      match world(post)
      case Raised(f) => Step([Invoke(post)], Err(f))
      case Returned(_) => Step([Invoke(post), Invoke(ModelFit(cbs))], Ok(cbs))
  }

  /** The three URLs of the job differ, so the start notification is never a metrics or halt POST. */
  lemma UrlsDiffer(cfg: Config)
    ensures cfg.StartUrl() != cfg.MetricsUrl() && cfg.StartUrl() != cfg.HaltUrl()
  {
    assert |cfg.StartUrl()| != |cfg.MetricsUrl()|;
    assert |cfg.StartUrl()| != |cfg.HaltUrl()|;
  }

  /** One callback's `on_epoch_end`; a user callback is a call into user code, which may raise. */
  function RunHook(cfg: Config, rev: Revision, cb: Callback, epoch: int, logs: Logs, world: World): (s: Step<HookResult>)
    ensures s.result == Halted ==>
      cb == PreemptionHook && 0 < |s.trace| && s.trace[|s.trace| - 1] == Exit && Occurrences(s.trace, Exit) == 1
    ensures s.result != Halted ==> Exit !in s.trace
  {
    match cb
    case MetricsHook =>
      var m := Metrics.OnEpochEnd(cfg, world, epoch, logs);
      Step(m.trace, if m.result.Ok? then Continue else Failed(m.result.error))
    case PreemptionHook =>
      Preemption.HookExitsOnlyWhenHalted(cfg, rev, world);
      Preemption.OnEpochEnd(cfg, rev, world)
    case UserHook(id) =>
      var c := UserEpochEnd(id, epoch);
      Step([Invoke(c)], if world(c).Raised? then Failed(world(c).fault) else Continue)
  }

  lemma PreemptionNeverNotifiesStart(cfg: Config, rev: Revision, world: World)
    ensures StartNotification(cfg) !in Preemption.OnEpochEnd(cfg, rev, world).trace
  {
    var probe := Preemption.IsDying(cfg, rev, world);
    UrlsDiffer(cfg);
    if probe.result == Ok(true) {
      var ev := Preemption.Evacuate(cfg, world);
      var full := Preemption.EvacuationSequence(cfg);
      assert StartNotification(cfg) !in full;
      assert ev.trace == full[..|ev.trace|];
    }
  }

  /** No callback makes the start notification: it is neither a metrics POST nor part of the pre-emption hook. */
  lemma HookNeverNotifiesStart(cfg: Config, rev: Revision, cb: Callback, epoch: int, logs: Logs, world: World)
    ensures StartNotification(cfg) !in RunHook(cfg, rev, cb, epoch, logs, world).trace
  {
    match cb
    case MetricsHook => UrlsDiffer(cfg);
    case PreemptionHook => PreemptionNeverNotifiesStart(cfg, rev, world);
    case UserHook(_) =>
  }

  /** The callbacks of one epoch, in list order, until one of them does not return normally. */
  function RunHooks(cfg: Config, rev: Revision, cbs: seq<Callback>, epoch: int, logs: Logs, world: World)
    : (s: Step<HookResult>)
    ensures s.result == Halted ==>
      PreemptionHook in cbs && 0 < |s.trace| && s.trace[|s.trace| - 1] == Exit && Occurrences(s.trace, Exit) == 1
    ensures s.result != Halted ==> Exit !in s.trace
    decreases |cbs|
  {
    if cbs == [] then Step([], Continue)
    else
      var h := RunHook(cfg, rev, cbs[0], epoch, logs, world);
      if h.result != Continue then h
      else
        var rest := RunHooks(cfg, rev, cbs[1..], epoch, logs, world);
        OccurrencesConcat(h.trace, rest.trace, Exit);
        Step(h.trace + rest.trace, rest.result)
  }

  /** No epoch's callbacks make the start notification. */
  lemma {:induction false} HooksNeverNotifyStart(cfg: Config, rev: Revision, cbs: seq<Callback>, epoch: int,
                                                 logs: Logs, world: World)
    ensures StartNotification(cfg) !in RunHooks(cfg, rev, cbs, epoch, logs, world).trace
    decreases |cbs|
  {
    if cbs != [] {
      HookNeverNotifiesStart(cfg, rev, cbs[0], epoch, logs, world);
      HooksNeverNotifyStart(cfg, rev, cbs[1..], epoch, logs, world);
    }
  }

  /** `RunHook` for one epoch, as a function of the callback. */
  function HookOf(cfg: Config, rev: Revision, epoch: int, logs: Logs, world: World): Callback -> Step<HookResult>
  {
    cb => RunHook(cfg, rev, cb, epoch, logs, world)
  }

  /** Callbacks run by `hook` in list order, until one of them does not return: `RunHooks` for any hook. */
  function RunAll(hook: Callback -> Step<HookResult>, cbs: seq<Callback>): Step<HookResult>
    decreases |cbs|
  {
    if cbs == [] then Step([], Continue)
    else
      var h := hook(cbs[0]);
      if h.result != Continue then h
      else
        var rest := RunAll(hook, cbs[1..]);
        Step(h.trace + rest.trace, rest.result)
  }

  /** The effects of callbacks run by `hook` one after another, each to its end. */
  function AllTraces(hook: Callback -> Step<HookResult>, cbs: seq<Callback>): seq<Event>
    decreases |cbs|
  {
    if cbs == [] then [] else hook(cbs[0]).trace + AllTraces(hook, cbs[1..])
  }

  /** The effects of the given callbacks of one epoch run one after another, in list order. */
  function HooksTrace(cfg: Config, rev: Revision, cbs: seq<Callback>, epoch: int, logs: Logs, world: World): seq<Event>
  {
    AllTraces(HookOf(cfg, rev, epoch, logs, world), cbs)
  }

  /** `RunHooks` is `RunAll` with the package's `RunHook`. */
  lemma {:induction false} RunHooksIsRunAll(cfg: Config, rev: Revision, cbs: seq<Callback>, epoch: int, logs: Logs,
                                            world: World)
    ensures RunHooks(cfg, rev, cbs, epoch, logs, world) == RunAll(HookOf(cfg, rev, epoch, logs, world), cbs)
    decreases |cbs|
  {
    if cbs != [] {
      RunHooksIsRunAll(cfg, rev, cbs[1..], epoch, logs, world);
    }
  }

  /** `HooksRunInOrder` for any hook. */
  lemma {:induction false} RunAllInOrder(hook: Callback -> Step<HookResult>, cbs: seq<Callback>, k: nat)
    requires k <= |cbs|
    requires forall i :: 0 <= i < k ==> hook(cbs[i]).result == Continue
    ensures RunAll(hook, cbs) == Step(AllTraces(hook, cbs[..k]) + RunAll(hook, cbs[k..]).trace, RunAll(hook, cbs[k..]).result)
    ensures k < |cbs| && hook(cbs[k]).result != Continue ==>
      RunAll(hook, cbs) == Step(AllTraces(hook, cbs[..k]) + hook(cbs[k]).trace, hook(cbs[k]).result)
    decreases k
  {
    if k == 0 {
      assert cbs[..0] == [] && cbs[0..] == cbs;
    } else {
      assert hook(cbs[0]).result == Continue;
      forall i | 0 <= i < k - 1 ensures hook(cbs[1..][i]).result == Continue {
        assert cbs[1..][i] == cbs[i + 1];
      }
      RunAllInOrder(hook, cbs[1..], k - 1);
      assert cbs[..k][0] == cbs[0] && cbs[..k][1..] == cbs[1..][..k - 1];
      assert cbs[1..][k - 1..] == cbs[k..];
      var rest := RunAll(hook, cbs[k..]);
      assert AllTraces(hook, cbs[..k]) == hook(cbs[0]).trace + AllTraces(hook, cbs[1..][..k - 1]);
      assert hook(cbs[0]).trace + (AllTraces(hook, cbs[1..][..k - 1]) + rest.trace) ==
        AllTraces(hook, cbs[..k]) + rest.trace;
    }
    if k < |cbs| {
      assert cbs[k..][0] == cbs[k];
    }
  }

  /**
   * The callbacks run in list order: once the first `k` have returned, the epoch's effects
   * are theirs, in order, followed by those of the rest of the list; and when callback `k`
   * then halts or raises, it is the last one to run and its outcome is the epoch's.
   */
  lemma HooksRunInOrder(cfg: Config, rev: Revision, cbs: seq<Callback>, epoch: int, logs: Logs, world: World, k: nat)
    requires k <= |cbs|
    requires forall i :: 0 <= i < k ==> RunHook(cfg, rev, cbs[i], epoch, logs, world).result == Continue
    ensures var rest := RunHooks(cfg, rev, cbs[k..], epoch, logs, world);
      RunHooks(cfg, rev, cbs, epoch, logs, world) ==
        Step(HooksTrace(cfg, rev, cbs[..k], epoch, logs, world) + rest.trace, rest.result)
    ensures k < |cbs| && RunHook(cfg, rev, cbs[k], epoch, logs, world).result != Continue ==>
      RunHooks(cfg, rev, cbs, epoch, logs, world) ==
        Step(HooksTrace(cfg, rev, cbs[..k], epoch, logs, world) + RunHook(cfg, rev, cbs[k], epoch, logs, world).trace,
             RunHook(cfg, rev, cbs[k], epoch, logs, world).result)
  {
    RunAllInOrder(HookOf(cfg, rev, epoch, logs, world), cbs, k);
    RunHooksIsRunAll(cfg, rev, cbs, epoch, logs, world);
    RunHooksIsRunAll(cfg, rev, cbs[k..], epoch, logs, world);
  }

  /** `RunAll` returns to the training loop exactly when every callback does. */
  lemma {:induction false} RunAllContinues(hook: Callback -> Step<HookResult>, cbs: seq<Callback>)
    ensures RunAll(hook, cbs).result == Continue <==> forall i :: 0 <= i < |cbs| ==> hook(cbs[i]).result == Continue
    decreases |cbs|
  {
    if cbs != [] {
      RunAllContinues(hook, cbs[1..]);
      assert forall i :: 0 <= i < |cbs| - 1 ==> cbs[1..][i] == cbs[i + 1];
      if forall i :: 0 <= i < |cbs| ==> hook(cbs[i]).result == Continue {
        assert hook(cbs[0]).result == Continue;
      }
    }
  }

  /** An epoch returns to the training loop exactly when every one of its callbacks returns. */
  lemma HooksContinueExactly(cfg: Config, rev: Revision, cbs: seq<Callback>, epoch: int, logs: Logs, world: World)
    ensures RunHooks(cfg, rev, cbs, epoch, logs, world).result == Continue <==>
      forall i :: 0 <= i < |cbs| ==> RunHook(cfg, rev, cbs[i], epoch, logs, world).result == Continue
  {
    RunAllContinues(HookOf(cfg, rev, epoch, logs, world), cbs);
    RunHooksIsRunAll(cfg, rev, cbs, epoch, logs, world);
  }

  /** An epoch whose list starts with two given callbacks: the first, the second only if it returned, then the rest. */
  lemma FirstTwoRun(hook: Callback -> Step<HookResult>, a: Callback, b: Callback, tail: seq<Callback>)
    ensures var s, first, second := RunAll(hook, [a, b] + tail), hook(a), hook(b);
      (first.result != Continue ==> s == first) &&
      (first.result == Continue && second.result != Continue ==> s == Step(first.trace + second.trace, second.result)) &&
      (first.result == Continue && second.result == Continue ==>
         s == Step(first.trace + second.trace + RunAll(hook, tail).trace, RunAll(hook, tail).result))
  {
    var cbs := [a, b] + tail;
    assert cbs[0] == a && cbs[1..][0] == b && cbs[1..][1..] == tail;
    var rest := RunAll(hook, tail);
    assert hook(a).trace + (hook(b).trace + rest.trace) == hook(a).trace + hook(b).trace + rest.trace;
  }

  /** The two hooks of the package, as `RunHook` runs them. */
  lemma PackageHooks(cfg: Config, rev: Revision, epoch: int, logs: Logs, world: World)
    ensures var m := Metrics.OnEpochEnd(cfg, world, epoch, logs);
      RunHook(cfg, rev, MetricsHook, epoch, logs, world) ==
        Step(m.trace, if m.result.Ok? then Continue else Failed(m.result.error))
    ensures RunHook(cfg, rev, PreemptionHook, epoch, logs, world) == Preemption.OnEpochEnd(cfg, rev, world)
  {
  }

  /**
   * The package's own hooks run first, the metrics hook before the pre-emption hook, and
   * the user's callbacks only after both have returned (line 60).
   */
  lemma PackageHooksRunFirst(cfg: Config, rev: Revision, user: Option<seq<Callback>>, epoch: int, logs: Logs,
                             world: World)
    ensures var s := RunHooks(cfg, rev, CallbackList(user), epoch, logs, world);
      var m := Metrics.OnEpochEnd(cfg, world, epoch, logs);
      var p := Preemption.OnEpochEnd(cfg, rev, world);
      var rest := RunHooks(cfg, rev, if user.Some? then user.value else [], epoch, logs, world);
      (m.result.Err? ==> s == Step(m.trace, Failed(m.result.error))) &&
      (m.result.Ok? && p.result != Continue ==> s == Step(m.trace + p.trace, p.result)) &&
      (m.result.Ok? && p.result == Continue ==> s == Step(m.trace + p.trace + rest.trace, rest.result))
  {
    var tail := if user.Some? then user.value else [];
    PackageHooks(cfg, rev, epoch, logs, world);
    FirstTwoRun(HookOf(cfg, rev, epoch, logs, world), MetricsHook, PreemptionHook, tail);
    RunHooksIsRunAll(cfg, rev, CallbackList(user), epoch, logs, world);
    RunHooksIsRunAll(cfg, rev, tail, epoch, logs, world);
  }

  /** What Keras's loop sees at the end of one epoch: the epoch log and the collaborators' answers. */
  datatype EpochInput = EpochInput(logs: Logs, world: World)

  /** How training ends: all epochs run, `sys.exit()` in some epoch, or an exception. */
  datatype Ending = Completed | HaltedAt(epoch: int) | Crashed(fault: Fault)

  /** The epochs from `epoch` on, one per input, until a hook exits or raises. */
  function RunEpochs(cfg: Config, rev: Revision, cbs: seq<Callback>, epoch: int, inputs: seq<EpochInput>)
    : (s: Step<Ending>)
    ensures s.result.HaltedAt? ==>
      epoch <= s.result.epoch < epoch + |inputs| &&
      0 < |s.trace| && s.trace[|s.trace| - 1] == Exit && Occurrences(s.trace, Exit) == 1
    ensures !s.result.HaltedAt? ==> Exit !in s.trace
    ensures StartNotification(cfg) !in s.trace
    decreases |inputs|
  {
    if inputs == [] then Step([], Completed)
    else
      var h := RunHooks(cfg, rev, cbs, epoch, inputs[0].logs, inputs[0].world);
      HooksNeverNotifyStart(cfg, rev, cbs, epoch, inputs[0].logs, inputs[0].world);
      match h.result
      case Halted => Step(h.trace, HaltedAt(epoch))
      case Failed(f) => Step(h.trace, Crashed(f))
      case Continue =>
        var rest := RunEpochs(cfg, rev, cbs, epoch + 1, inputs[1..]);
        OccurrencesConcat(h.trace, rest.trace, Exit);
        Step(h.trace + rest.trace, rest.result)
  }

  /**
   * `fit`: one start notification before anything else, `model.fit` with the callback
   * list, then the epochs; the start notification is never repeated.
   */
  function Fit(cfg: Config, rev: Revision, world: World, user: Option<seq<Callback>>, initialEpoch: int,
               inputs: seq<EpochInput>): (s: Step<Ending>)
    ensures 0 < |s.trace| && s.trace[0] == StartNotification(cfg)
    ensures Occurrences(s.trace, StartNotification(cfg)) == 1
    ensures StartFit(cfg, world, user).result.Ok? ==>
      s == (var run := RunEpochs(cfg, rev, CallbackList(user), initialEpoch, inputs);
            Step(StartFit(cfg, world, user).trace + run.trace, run.result)) &&
      s.trace[1] == Invoke(ModelFit(CallbackList(user)))
    ensures StartFit(cfg, world, user).result.Err? ==> s == Step([StartNotification(cfg)], Crashed(StartFit(cfg, world, user).result.error))
  {
    var start := StartFit(cfg, world, user);
    match start.result
    case Err(f) => Step(start.trace, Crashed(f))
    case Ok(cbs) =>
      var run := RunEpochs(cfg, rev, cbs, initialEpoch, inputs);
      OnlyAtHead(start.trace + run.trace, StartNotification(cfg));
      Step(start.trace + run.trace, run.result)
  }

  /** One step of the run: the first epoch's hooks, then the remaining epochs only if they returned. */
  lemma EpochsUnfold(cfg: Config, rev: Revision, cbs: seq<Callback>, epoch: int, inputs: seq<EpochInput>)
    requires inputs != []
    ensures var h := RunHooks(cfg, rev, cbs, epoch, inputs[0].logs, inputs[0].world);
      var rest := RunEpochs(cfg, rev, cbs, epoch + 1, inputs[1..]);
      RunEpochs(cfg, rev, cbs, epoch, inputs) ==
        match h.result
        case Halted => Step(h.trace, HaltedAt(epoch))
        case Failed(f) => Step(h.trace, Crashed(f))
        case Continue => Step(h.trace + rest.trace, rest.result)
  {
  }

  /** What the callbacks of an epoch return, as a function of the epoch number and its input. */
  function EpochOutcome(cfg: Config, rev: Revision, cbs: seq<Callback>): (int, EpochInput) -> HookResult
  {
    (e: int, input: EpochInput) => RunHooks(cfg, rev, cbs, e, input.logs, input.world).result
  }

  /** The outcome of each epoch from `epoch` on, one per input, as if every epoch ran. */
  function OutcomesOf(outcome: (int, EpochInput) -> HookResult, epoch: int, inputs: seq<EpochInput>)
    : (o: seq<HookResult>)
    ensures |o| == |inputs|
    decreases |inputs|
  {
    if inputs == [] then []
    else [outcome(epoch, inputs[0])] + OutcomesOf(outcome, epoch + 1, inputs[1..])
  }

  /** How a run ends, read off the epochs' outcomes: at the first one that is not `Continue`. */
  function EndingOf(outcomes: seq<HookResult>, epoch: int): Ending
    decreases |outcomes|
  {
    if outcomes == [] then Completed
    else match outcomes[0]
      case Halted => HaltedAt(epoch)
      case Failed(f) => Crashed(f)
      case Continue => EndingOf(outcomes[1..], epoch + 1)
  }

  /** Entry `k` of the outcomes is the outcome of epoch `epoch + k`. */
  lemma {:induction false} OutcomeAt(outcome: (int, EpochInput) -> HookResult, epoch: int, inputs: seq<EpochInput>,
                                     k: nat)
    requires k < |inputs|
    ensures OutcomesOf(outcome, epoch, inputs)[k] == outcome(epoch + k, inputs[k])
    decreases k
  {
    if k > 0 {
      OutcomeAt(outcome, epoch + 1, inputs[1..], k - 1);
      assert inputs[1..][k - 1] == inputs[k] && epoch + 1 + (k - 1) == epoch + k;
    }
  }

  /** The run ends as its epochs' outcomes say. */
  lemma {:induction false} RunEndsAsOutcomesSay(cfg: Config, rev: Revision, cbs: seq<Callback>, epoch: int,
                                                inputs: seq<EpochInput>)
    ensures RunEpochs(cfg, rev, cbs, epoch, inputs).result ==
      EndingOf(OutcomesOf(EpochOutcome(cfg, rev, cbs), epoch, inputs), epoch)
    decreases |inputs|
  {
    if inputs != [] {
      RunEndsAsOutcomesSay(cfg, rev, cbs, epoch + 1, inputs[1..]);
      var o := OutcomesOf(EpochOutcome(cfg, rev, cbs), epoch, inputs);
      assert o[0] == RunHooks(cfg, rev, cbs, epoch, inputs[0].logs, inputs[0].world).result;
      assert o[1..] == OutcomesOf(EpochOutcome(cfg, rev, cbs), epoch + 1, inputs[1..]);
    }
  }

  /** A run completes exactly when no outcome is a stop. */
  lemma {:induction false} CompletedWhenAllContinue(outcomes: seq<HookResult>, epoch: int)
    ensures EndingOf(outcomes, epoch) == Completed <==> forall i :: 0 <= i < |outcomes| ==> outcomes[i] == Continue
    decreases |outcomes|
  {
    if outcomes != [] {
      CompletedWhenAllContinue(outcomes[1..], epoch + 1);
      assert forall i :: 0 <= i < |outcomes| - 1 ==> outcomes[1..][i] == outcomes[i + 1];
      if forall i :: 0 <= i < |outcomes| ==> outcomes[i] == Continue {
        assert outcomes[0] == Continue;
      }
    }
  }

  /** Training runs every epoch to the end exactly when the callbacks of every epoch return. */
  lemma RunCompletesExactly(cfg: Config, rev: Revision, cbs: seq<Callback>, epoch: int, inputs: seq<EpochInput>)
    ensures RunEpochs(cfg, rev, cbs, epoch, inputs).result == Completed <==>
      forall i :: 0 <= i < |inputs| ==> EpochOutcome(cfg, rev, cbs)(epoch + i, inputs[i]) == Continue
  {
    var outcome := EpochOutcome(cfg, rev, cbs);
    var o := OutcomesOf(outcome, epoch, inputs);
    forall i | 0 <= i < |inputs| ensures o[i] == outcome(epoch + i, inputs[i]) {
      OutcomeAt(outcome, epoch, inputs, i);
    }
    CompletedWhenAllContinue(o, epoch);
    RunEndsAsOutcomesSay(cfg, rev, cbs, epoch, inputs);
  }

  /** The first outcome that is not `Continue` decides the ending, with its epoch. */
  lemma {:induction false} FirstStopDecides(outcomes: seq<HookResult>, epoch: int, k: nat)
    requires k < |outcomes| && outcomes[k] != Continue
    requires forall i :: 0 <= i < k ==> outcomes[i] == Continue
    ensures EndingOf(outcomes, epoch) ==
      if outcomes[k] == Halted then HaltedAt(epoch + k) else Crashed(outcomes[k].fault)
    decreases k
  {
    if k > 0 {
      assert outcomes[0] == Continue;
      forall i | 0 <= i < k - 1 ensures outcomes[1..][i] == Continue {
        assert outcomes[1..][i] == outcomes[i + 1];
      }
      FirstStopDecides(outcomes[1..], epoch + 1, k - 1);
      assert outcomes[1..][k - 1] == outcomes[k] && epoch + 1 + (k - 1) == epoch + k;
    }
  }

  /** The same, stated on the epochs' inputs: the first epoch whose outcome is not `Continue` decides. */
  lemma FirstStoppingEpochDecides(outcome: (int, EpochInput) -> HookResult, epoch: int, inputs: seq<EpochInput>,
                                  k: nat)
    requires k < |inputs| && outcome(epoch + k, inputs[k]) != Continue
    requires forall i :: 0 <= i < k ==> outcome(epoch + i, inputs[i]) == Continue
    ensures EndingOf(OutcomesOf(outcome, epoch, inputs), epoch) ==
      if outcome(epoch + k, inputs[k]) == Halted then HaltedAt(epoch + k) else Crashed(outcome(epoch + k, inputs[k]).fault)
  {
    var o := OutcomesOf(outcome, epoch, inputs);
    forall i | 0 <= i < k ensures o[i] == Continue {
      OutcomeAt(outcome, epoch, inputs, i);
    }
    OutcomeAt(outcome, epoch, inputs, k);
    FirstStopDecides(o, epoch, k);
  }

  /**
   * The epochs run in order: when the hooks of the first `k` epochs returned and those of
   * epoch `k` halt or raise, the run ends in that epoch with that outcome, so no later
   * epoch runs.
   */
  lemma EpochStopEndsRun(cfg: Config, rev: Revision, cbs: seq<Callback>, epoch: int, inputs: seq<EpochInput>, k: nat)
    requires k < |inputs|
    requires forall i :: 0 <= i < k ==> EpochOutcome(cfg, rev, cbs)(epoch + i, inputs[i]) == Continue
    requires EpochOutcome(cfg, rev, cbs)(epoch + k, inputs[k]) != Continue
    ensures var stop := EpochOutcome(cfg, rev, cbs)(epoch + k, inputs[k]);
      RunEpochs(cfg, rev, cbs, epoch, inputs).result ==
        if stop == Halted then HaltedAt(epoch + k) else Crashed(stop.fault)
  {
    FirstStoppingEpochDecides(EpochOutcome(cfg, rev, cbs), epoch, inputs, k);
    RunEndsAsOutcomesSay(cfg, rev, cbs, epoch, inputs);
  }

  /** Once training has halted (or raised), later epochs change nothing: no epoch runs after `sys.exit()`. */
  lemma {:induction false} StopIsFinal(cfg: Config, rev: Revision, cbs: seq<Callback>, epoch: int,
                                       inputs: seq<EpochInput>, later: seq<EpochInput>)
    requires !RunEpochs(cfg, rev, cbs, epoch, inputs).result.Completed?
    ensures RunEpochs(cfg, rev, cbs, epoch, inputs + later) == RunEpochs(cfg, rev, cbs, epoch, inputs)
    decreases |inputs|
  {
    assert inputs != [];
    assert (inputs + later)[0] == inputs[0];
    assert (inputs + later)[1..] == inputs[1..] + later;
    var h := RunHooks(cfg, rev, cbs, epoch, inputs[0].logs, inputs[0].world);
    if h.result == Continue {
      StopIsFinal(cfg, rev, cbs, epoch + 1, inputs[1..], later);
    }
  }

  /** The log line dev mode prints for an epoch that has a report. */
  function DevReportLine(epoch: int, logs: Logs): Event
    requires Metrics.BuildReport(epoch, logs).Some?
  {
    Print(SkippingMetricsPost(Metrics.BuildReport(epoch, logs).value))
  }

  /** In dev mode, an epoch with a report and no user callbacks prints its report line and nothing else. */
  lemma DevEpochLogsOnce(cfg: Config, rev: Revision, epoch: int, logs: Logs, world: World)
    requires cfg.dev && Metrics.BuildReport(epoch, logs).Some?
    ensures RunHooks(cfg, rev, CallbackList(None), epoch, logs, world) == Step([DevReportLine(epoch, logs)], Continue)
  {
    PackageHooksRunFirst(cfg, rev, None, epoch, logs, world);
    assert [DevReportLine(epoch, logs)] + [] + [] == [DevReportLine(epoch, logs)];
  }

  /**
   * In dev mode, with no user callbacks and a loss and an accuracy in every epoch log,
   * training runs every epoch, makes no storage or network call, never halts, and prints
   * exactly one skipped-metrics line per epoch, in epoch order.
   */
  lemma {:induction false} DevTrainingLogsEveryEpoch(cfg: Config, rev: Revision, epoch: int, inputs: seq<EpochInput>)
    requires cfg.dev
    requires forall i :: 0 <= i < |inputs| ==> Metrics.BuildReport(epoch + i, inputs[i].logs).Some?
    ensures var s := RunEpochs(cfg, rev, CallbackList(None), epoch, inputs);
      s.result == Completed && Offline(s.trace) && |s.trace| == |inputs| &&
      forall i :: 0 <= i < |inputs| ==> s.trace[i] == DevReportLine(epoch + i, inputs[i].logs)
    decreases |inputs|
  {
    if inputs != [] {
      assert Metrics.BuildReport(epoch + 0, inputs[0].logs).Some?;
      forall i | 0 <= i < |inputs[1..]|
        ensures Metrics.BuildReport(epoch + 1 + i, inputs[1..][i].logs).Some?
      {
        assert inputs[1..][i] == inputs[i + 1];
        assert Metrics.BuildReport(epoch + (i + 1), inputs[i + 1].logs).Some?;
      }
      DevTrainingLogsEveryEpoch(cfg, rev, epoch + 1, inputs[1..]);
      var h := RunHooks(cfg, rev, CallbackList(None), epoch, inputs[0].logs, inputs[0].world);
      DevEpochLogsOnce(cfg, rev, epoch, inputs[0].logs, inputs[0].world);
      var rest := RunEpochs(cfg, rev, CallbackList(None), epoch + 1, inputs[1..]);
      EpochsUnfold(cfg, rev, CallbackList(None), epoch, inputs);
      DevLinesPrepend(epoch, inputs, rest.trace);
    }
  }

  /** The report line of the first epoch, followed by those of the later epochs, gives every epoch's line in order. */
  lemma DevLinesPrepend(epoch: int, inputs: seq<EpochInput>, rest: seq<Event>)
    requires inputs != []
    requires forall i :: 0 <= i < |inputs| ==> Metrics.BuildReport(epoch + i, inputs[i].logs).Some?
    requires Offline(rest) && |rest| == |inputs| - 1
    requires forall i :: 0 <= i < |inputs| - 1 ==>
      Metrics.BuildReport(epoch + 1 + i, inputs[1..][i].logs).Some? &&
      rest[i] == DevReportLine(epoch + 1 + i, inputs[1..][i].logs)
    ensures var t := [DevReportLine(epoch, inputs[0].logs)] + rest;
      Offline(t) && |t| == |inputs| && forall i :: 0 <= i < |inputs| ==> t[i] == DevReportLine(epoch + i, inputs[i].logs)
  {
    assert Metrics.BuildReport(epoch + 0, inputs[0].logs).Some?;
    var t := [DevReportLine(epoch, inputs[0].logs)] + rest;
    forall i | 0 < i < |inputs| ensures t[i] == DevReportLine(epoch + i, inputs[i].logs) {
      assert t[i] == rest[i - 1];
      assert inputs[1..][i - 1] == inputs[i] && epoch + 1 + (i - 1) == epoch + i;
    }
  }

  /** A moment with no termination notice at which every call returns normally. */
  ghost predicate NoNotice(world: World)
  {
    (forall c :: world(c).Returned?) && world(Preemption.MetadataGet).status != 200
  }

  /**
   * As written, a prod spot instance without any termination notice is taken for dying:
   * training saves, uploads, posts the halt and exits at the end of its first epoch.
   */
  lemma NoNoticeHaltsAsWritten(cfg: Config, user: Option<seq<Callback>>, epoch: int, inputs: seq<EpochInput>)
    requires !cfg.dev && 0 < |inputs| && NoNotice(inputs[0].world)
    ensures RunEpochs(cfg, AsWritten, CallbackList(user), epoch, inputs).result == HaltedAt(epoch)
  {
    var cbs := CallbackList(user);
    NoNoticeHookHaltsAsWritten(cfg, cbs[1..], epoch, inputs[0].logs, inputs[0].world);
  }

  /** As written, the pre-emption hook exits on a healthy instance, before any later callback. */
  lemma NoNoticeHookHaltsAsWritten(cfg: Config, cbs: seq<Callback>, epoch: int, logs: Logs, world: World)
    requires !cfg.dev && NoNotice(world) && 0 < |cbs| && cbs[0] == PreemptionHook
    ensures RunHooks(cfg, AsWritten, cbs, epoch, logs, world) == Preemption.OnEpochEnd(cfg, AsWritten, world)
    ensures RunHooks(cfg, AsWritten, cbs, epoch, logs, world).result == Halted
  {
    assert Preemption.IsDying(cfg, AsWritten, world).result == Ok(true);
  }

  /** Read as intended, no callback of any list stops an epoch that has no notice. */
  lemma {:induction false} NoNoticeEpochContinues(cfg: Config, cbs: seq<Callback>, epoch: int, logs: Logs, world: World)
    requires NoNotice(world)
    ensures RunHooks(cfg, Intended, cbs, epoch, logs, world).result == Continue
    decreases |cbs|
  {
    if cbs != [] {
      var h := RunHook(cfg, Intended, cbs[0], epoch, logs, world);
      assert h.result == Continue by {
        if cbs[0] == PreemptionHook {
          assert Preemption.IsDying(cfg, Intended, world).result == Ok(false);
        }
      }
      NoNoticeEpochContinues(cfg, cbs[1..], epoch, logs, world);
    }
  }

  /**
   * Read as intended, training with no termination notice in any epoch, and no call that
   * raises, runs every epoch to completion and never exits.
   */
  lemma {:induction false} NoNoticeCompletesIntended(cfg: Config, cbs: seq<Callback>, epoch: int, inputs: seq<EpochInput>)
    requires forall i :: 0 <= i < |inputs| ==> NoNotice(inputs[i].world)
    ensures RunEpochs(cfg, Intended, cbs, epoch, inputs).result == Completed
    ensures Exit !in RunEpochs(cfg, Intended, cbs, epoch, inputs).trace
    decreases |inputs|
  {
    if inputs != [] {
      NoNoticeEpochContinues(cfg, cbs, epoch, inputs[0].logs, inputs[0].world);
      assert forall i :: 0 <= i < |inputs[1..]| ==> inputs[1..][i] == inputs[i + 1];
      NoNoticeCompletesIntended(cfg, cbs, epoch + 1, inputs[1..]);
    }
  }
}
