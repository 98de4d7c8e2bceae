/**
 * The state tracker: merged options, an active flag, the framework chosen at
 * construction, and the time of the last admitted capture. The platform's
 * clock and random source are parameters of `CaptureChange`; the page-global
 * scope is the `Env` given to the constructor.
 */
module Tracker {
  import opened Values
  import opened FrameworkDetector
  import Sampler

  /** A property of an options object: missing, present but undefined, or present with a value. */
  datatype Prop<+T> = Missing | UndefinedProp | Given(value: T)

  /** ITrackerOptions; the tracker itself reads only enabled, sampleRate, autoDetectFramework and framework. */
  datatype TrackerOptions = TrackerOptions(
    enabled: Prop<bool>,
    sampleRate: Prop<real>,
    memoryLimit: Prop<real>,
    maxRecords: Prop<real>,
    autoDetectFramework: Prop<bool>,
    framework: Prop<FrameworkType>,
    enableSanitization: Prop<bool>)

  /** The tracker section of DEFAULT_CONFIG. */
  const DefaultTrackerOptions: TrackerOptions :=
    TrackerOptions(Given(true), Given(1.0), Given(10.0), Given(200.0), Given(true), Missing, Given(false))

  /** Constructing without options. */
  const NoOptions: TrackerOptions :=
    TrackerOptions(Missing, Missing, Missing, Missing, Missing, Missing, Missing)

  /** One property of `{...base, ...patch}`: every property present in `patch`, even an undefined one, wins. */
  function Override<T>(base: Prop<T>, patch: Prop<T>): (r: Prop<T>)
    ensures patch.Missing? ==> r == base
    ensures !patch.Missing? ==> r == patch
  {
    if patch.Missing? then base else patch
  }

  /** `{...base, ...patch}` on options objects. */
  function MergeOptions(base: TrackerOptions, patch: TrackerOptions): (o: TrackerOptions)
    ensures patch == NoOptions ==> o == base
    ensures base == NoOptions ==> o == patch
  {
    TrackerOptions(
      Override(base.enabled, patch.enabled),
      Override(base.sampleRate, patch.sampleRate),
      Override(base.memoryLimit, patch.memoryLimit),
      Override(base.maxRecords, patch.maxRecords),
      Override(base.autoDetectFramework, patch.autoDetectFramework),
      Override(base.framework, patch.framework),
      Override(base.enableSanitization, patch.enableSanitization))
  }

  /** Spreading the same options twice is spreading them once. */
  lemma SpreadIdempotent(base: TrackerOptions, patch: TrackerOptions)
    ensures MergeOptions(MergeOptions(base, patch), patch) == MergeOptions(base, patch)
  {
  }

  /** `enabled ?? true`: only a boolean that is present counts. */
  function EnabledOrTrue(enabled: Prop<bool>): (on: bool)
    ensures on <==> !(enabled.Given? && !enabled.value)
  {
    if enabled.Given? then enabled.value else true
  }

  /** `sampleRate || 1.0`: a missing, undefined or zero rate falls back to 1. */
  function EffectiveSampleRate(sampleRate: Prop<real>): (rate: real)
    ensures rate != 0.0
    ensures sampleRate.Given? && sampleRate.value != 0.0 ==> rate == sampleRate.value
    ensures !(sampleRate.Given? && sampleRate.value != 0.0) ==> rate == 1.0
  {
    if sampleRate.Given? && sampleRate.value != 0.0 then sampleRate.value else 1.0
  }

  /** `framework || (autoDetectFramework ? detectFramework() : 'unknown')`; every framework name is a non-empty string. */
  function InitialFramework(options: TrackerOptions, env: Env): (f: FrameworkType)
    ensures options.framework.Given? ==> f == options.framework.value
    ensures !options.framework.Given? && options.autoDetectFramework == Given(true) ==> f == DetectFramework(env)
    ensures !options.framework.Given? && options.autoDetectFramework != Given(true) ==> f == Unknown
  {
    if options.framework.Given? then options.framework.value
    else if options.autoDetectFramework.Given? && options.autoDetectFramework.value then DetectFramework(env)
    else Unknown
  }

  /**
   * The `lastCapture` after one captureChange call: it moves to `now` exactly
   * when the tracker is active and the sampler admits the event.
   */
  function NextLastCapture(active: bool, sampleRate: real, lastCapture: real, now: real, r1: real, r2: real): (next: real)
    ensures next == now || next == lastCapture
    ensures !active || r1 > sampleRate ==> next == lastCapture
  {
    if active && Sampler.ShouldCapture(sampleRate, now - lastCapture, r1, r2) then now else lastCapture
  }

  lemma NextLastCaptureCases(active: bool, sampleRate: real, lastCapture: real, now: real, r1: real, r2: real)
    requires Sampler.IsDraw(r2)
    ensures active && lastCapture != now ==>
              (NextLastCapture(active, sampleRate, lastCapture, now, r1, r2) == now <==>
               r1 <= sampleRate && r2 < Sampler.BurstFactor(now - lastCapture))
  {
    Sampler.AdmissionRegion(sampleRate, now - lastCapture, r1, r2);
  }

  /** With a clock that does not go back, the time of the last capture never decreases. */
  lemma LastCaptureMonotone(active: bool, sampleRate: real, lastCapture: real, now: real, r1: real, r2: real)
    requires lastCapture <= now
    ensures lastCapture <= NextLastCapture(active, sampleRate, lastCapture, now, r1, r2) <= now
  {
  }

  /** A negative configured rate is kept (it is truthy) and then admits no event. */
  lemma NegativeRateNeverCaptures(rate: real, lastCapture: real, now: real, r1: real, r2: real)
    requires rate < 0.0 && Sampler.IsDraw(r1)
    ensures NextLastCapture(true, EffectiveSampleRate(Given(rate)), lastCapture, now, r1, r2) == lastCapture
  {
  }

  /** A configured rate of exactly 0 is falsy and samples at the full rate instead of disabling capture. */
  lemma ZeroRateMeansFullRate(lastCapture: real, now: real, r1: real, r2: real)
    requires Sampler.IsDraw(r1) && now - lastCapture >= 500.0
    ensures NextLastCapture(true, EffectiveSampleRate(Given(0.0)), lastCapture, now, r1, r2) == now
  {
  }

  class StateTracker {
    const options: TrackerOptions
    var active: bool
    const framework: FrameworkType
    var lastCapture: real

    /** new StateTracker(options): defaults overridden by the given options; detection reads `env`. */
    constructor (given: TrackerOptions, env: Env)
      ensures options == MergeOptions(DefaultTrackerOptions, given)
      ensures active == EnabledOrTrue(options.enabled)
      ensures framework == InitialFramework(options, env)
      ensures lastCapture == 0.0
    {
      options := MergeOptions(DefaultTrackerOptions, given);
      active := EnabledOrTrue(MergeOptions(DefaultTrackerOptions, given).enabled);
      framework := InitialFramework(MergeOptions(DefaultTrackerOptions, given), env);
      lastCapture := 0.0;
    }

    method Start()
      modifies this`active
      ensures active
    {
      active := true;
    }

    method Stop()
      modifies this`active
      ensures !active
    {
      active := false;
    }

    /**
     * captureChange(action, state) at clock reading `now`, with `r1` and `r2`
     * the two draws the sampler takes.
     */
    method CaptureChange(action: Value, state: Value, now: real, r1: real, r2: real)
      modifies this`lastCapture
      ensures lastCapture ==
              NextLastCapture(active, EffectiveSampleRate(options.sampleRate), old(lastCapture), now, r1, r2)
    {
      if !active {
        return;
      }
      if Sampler.ShouldCapture(EffectiveSampleRate(options.sampleRate), now - lastCapture, r1, r2) {
        lastCapture := now;
      }
    }

    /** getCurrentState(): always an empty object. */
    function GetCurrentState(): (r: Value)
      ensures r.Object? && r.fields == map[]
    {
      Object(map[])
    }
  }

  /**
   * A tracker built without options is active, samples at rate 1, keeps the
   * remaining defaults, and uses the detected framework.
   */
  lemma DefaultTracker(env: Env)
    ensures MergeOptions(DefaultTrackerOptions, NoOptions) == DefaultTrackerOptions
    ensures EnabledOrTrue(DefaultTrackerOptions.enabled)
    ensures EffectiveSampleRate(DefaultTrackerOptions.sampleRate) == 1.0
    ensures InitialFramework(DefaultTrackerOptions, env) == DetectFramework(env)
  {
  }

  /** An explicit `enabled: undefined` still starts the tracker active. */
  lemma UndefinedEnabledIsActive(given: TrackerOptions)
    requires given.enabled == UndefinedProp
    ensures EnabledOrTrue(MergeOptions(DefaultTrackerOptions, given).enabled)
  {
  }

  /**
   * `autoDetectFramework: undefined` overrides the default `true`, so detection
   * is skipped and the framework is "unknown" unless one is named.
   */
  lemma UndefinedAutoDetectSkipsDetection(given: TrackerOptions, env: Env)
    requires given.autoDetectFramework == UndefinedProp && !given.framework.Given?
    ensures InitialFramework(MergeOptions(DefaultTrackerOptions, given), env) == Unknown
  {
  }

  /** Stop, then a capture: nothing moves; start, with an idle gap and a gate-passing draw: the capture is admitted. */
  method StopStartScenario(t: StateTracker, now: real, r1: real, r2: real)
    requires r1 <= EffectiveSampleRate(t.options.sampleRate) && now - t.lastCapture >= 500.0
    modifies t
    ensures t.active && t.lastCapture == now
  {
    t.Stop();
    var before := t.lastCapture;
    t.CaptureChange(Null, Null, now, r1, r2);
    assert t.lastCapture == before;
    t.Start();
    t.CaptureChange(Null, Null, now, r1, r2);
  }
}
