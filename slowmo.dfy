// The hold-to-slow-motion interaction: input events start and end a hold,
// each frame advances the hold or the eased release and smooths the time
// scale towards its target, and the post-processing, audio and camera
// settings follow the effect's progress.
module Slowmo {
  import opened Geometry
  import opened Wrappers

  // ---------------------------------------------------------------------------
  // Configuration.

  /** The effect's tuning; durations are in seconds, the field of view in degrees. */
  datatype SlowmoConfig = SlowmoConfig(
    holdDelay: real,
    holdDuration: real,
    minTimeScale: real,
    easeK: real,
    releaseEaseDuration: real,
    defaultDamp: real,
    trailDamp: real,
    maxRGBShift: real,
    maxCustomAberration: real,
    maxVignette: real,
    baseFOV: real,
    maxFOVChange: real)

  /** The built-in configuration; baseFOV is the camera's field of view when the effect is made. */
  function DefaultConfig(baseFOV: real): SlowmoConfig
  {
    SlowmoConfig(0.25, 3.0, 0.3, 8.0, 0.8, 0.96, 0.7, 0.005, 0.008, 1.8, baseFOV, 5.0)
  }

  /**
   * What the update rules need of a configuration: positive ramp and
   * release durations and a minimum time scale in [0, 1]; the damping
   * bounds are those the afterimage interpolation assumes.
   */
  predicate ValidConfig(c: SlowmoConfig)
  {
    c.holdDuration > 0.0 && c.releaseEaseDuration > 0.0 &&
    0.0 <= c.minTimeScale <= 1.0 &&
    0.5 <= c.trailDamp <= c.defaultDamp
  }

  lemma DefaultConfigValid(baseFOV: real)
    ensures ValidConfig(DefaultConfig(baseFOV))
  {
  }

  // ---------------------------------------------------------------------------
  // State and the per-frame rules.

  /** The effect's state; the start times are performance.now() readings in milliseconds. */
  datatype SlowmoState = SlowmoState(
    isHolding: bool,
    holdStartTime: real,
    holdElapsed: real,
    progress: real,
    progressAtRelease: real,
    targetTimeScale: real,
    currentTimeScale: real,
    releaseStartTime: real,
    releaseProgress: real,
    isReleasing: bool)

  function InitialState(): SlowmoState
  {
    SlowmoState(false, 0.0, 0.0, 0.0, 0.0, 1.0, 1.0, 0.0, 0.0, false)
  }

  /** Progress of a hold that has lasted `elapsed` seconds: nothing during the delay, then a linear ramp capped at 1. */
  function HoldProgress(c: SlowmoConfig, elapsed: real): real
    requires ValidConfig(c)
  {
    if elapsed < c.holdDelay then 0.0 else Min((elapsed - c.holdDelay) / c.holdDuration, 1.0)
  }

  /** How far a release that has lasted `elapsed` seconds is through its ease, capped at 1. */
  function ReleaseFraction(c: SlowmoConfig, elapsed: real): real
    requires ValidConfig(c)
  {
    Min(elapsed / c.releaseEaseDuration, 1.0)
  }

  /** Quadratic ease-out, 1 - (1 - r)^2. */
  function EaseOut(r: real): real
  {
    1.0 - (1.0 - r) * (1.0 - r)
  }

  /** The time scale a progress asks for: 1 at no effect, minTimeScale at full effect. */
  function TargetTimeScale(c: SlowmoConfig, p: real): real
  {
    Lerp(1.0, c.minTimeScale, p)
  }

  /** Leftover progress fading at twice the frame time. */
  function Decay(p: real, dt: real): real
  {
    Max(0.0, p - dt * 2.0)
  }

  /** The progress a release has reached at time `now` (milliseconds). */
  function ReleaseLevel(c: SlowmoConfig, s: SlowmoState, now: real): real
    requires ValidConfig(c)
  {
    Lerp(s.progressAtRelease, 0.0, EaseOut(ReleaseFraction(c, (now - s.releaseStartTime) / 1000.0)))
  }

  /** The state startHold leaves. */
  function AfterStartHold(s: SlowmoState, now: real): SlowmoState
  {
    s.(isHolding := true, isReleasing := false, holdStartTime := now, holdElapsed := 0.0)
  }

  /** The state endHold leaves: the release starts from the current progress and asks for full speed. */
  function AfterEndHold(s: SlowmoState, now: real): SlowmoState
  {
    s.(isHolding := false, isReleasing := true, releaseStartTime := now, releaseProgress := 0.0,
       progressAtRelease := s.progress, targetTimeScale := 1.0)
  }

  /** The first part of update: advance the hold, the release or the leftover fade. */
  function Advance(c: SlowmoConfig, s: SlowmoState, dt: real, now: real): SlowmoState
    requires ValidConfig(c)
  {
    if s.isHolding then
      var elapsed := (now - s.holdStartTime) / 1000.0;
      var p := HoldProgress(c, elapsed);
      s.(holdElapsed := elapsed, progress := p, targetTimeScale := TargetTimeScale(c, p))
    else if s.isReleasing then
      var r := ReleaseFraction(c, (now - s.releaseStartTime) / 1000.0);
      if r >= 1.0 then
        s.(releaseProgress := r, isReleasing := false, progress := 0.0, progressAtRelease := 0.0)
      else
        s.(releaseProgress := r, progress := ReleaseLevel(c, s, now))
    else if s.progress > 0.0 then
      s.(progress := Decay(s.progress, dt))
    else
      s
  }

  /**
   * One call of update: advance, then move the current time scale towards
   * its target by lerpFactor (the source's 1 - exp(-easeK * deltaTime)).
   */
  function Step(c: SlowmoConfig, s: SlowmoState, dt: real, now: real, lerpFactor: real): SlowmoState
    requires ValidConfig(c)
  {
    var a := Advance(c, s, dt, now);
    a.(currentTimeScale := Lerp(a.currentTimeScale, a.targetTimeScale, lerpFactor))
  }

  /**
   * The effect's invariant: progress values in [0, 1], time scales in
   * [minTimeScale, 1], never holding and releasing at once, a release never
   * above where it started, and no progress left when neither is going on.
   */
  predicate Inv(c: SlowmoConfig, s: SlowmoState)
  {
    0.0 <= s.progress <= 1.0 &&
    0.0 <= s.progressAtRelease <= 1.0 &&
    0.0 <= s.releaseProgress <= 1.0 &&
    c.minTimeScale <= s.targetTimeScale <= 1.0 &&
    c.minTimeScale <= s.currentTimeScale <= 1.0 &&
    !(s.isHolding && s.isReleasing) &&
    (s.isReleasing ==> s.progress <= s.progressAtRelease) &&
    (!s.isHolding && !s.isReleasing ==> s.progress == 0.0)
  }

  lemma InitialStateInv(c: SlowmoConfig)
    requires ValidConfig(c)
    ensures Inv(c, InitialState())
  {
  }

  // ---------------------------------------------------------------------------
  // Properties of the rules.

  lemma DivideMonotone(a: real, b: real, d: real)
    requires d > 0.0 && a <= b
    ensures a / d <= b / d
  {
    assert b / d - a / d == (b - a) / d;
  }

  lemma DivideAtLeastOne(a: real, d: real)
    requires d > 0.0 && a >= d
    ensures a / d >= 1.0
  {
    var q := a / d;
    assert q * d == a;
    PositiveProduct(1.0 - q, d);
  }

  /** Hold progress is in [0, 1], is 0 through the delay, reaches 1 after the ramp, and never falls while the hold lasts. */
  lemma HoldProgressProperties(c: SlowmoConfig, e1: real, e2: real)
    requires ValidConfig(c)
    ensures 0.0 <= HoldProgress(c, e1) <= 1.0
    ensures e1 <= c.holdDelay ==> HoldProgress(c, e1) == 0.0
    ensures e1 >= c.holdDelay + c.holdDuration ==> HoldProgress(c, e1) == 1.0
    ensures e1 <= e2 ==> HoldProgress(c, e1) <= HoldProgress(c, e2)
  {
    if e1 >= c.holdDelay {
      DivideNonNegative(e1 - c.holdDelay, c.holdDuration);
      if e1 >= c.holdDelay + c.holdDuration {
        DivideAtLeastOne(e1 - c.holdDelay, c.holdDuration);
      }
    }
    if c.holdDelay <= e1 <= e2 {
      DivideMonotone(e1 - c.holdDelay, e2 - c.holdDelay, c.holdDuration);
    } else if e1 <= e2 && e2 >= c.holdDelay {
      DivideNonNegative(e2 - c.holdDelay, c.holdDuration);
    }
  }

  /** The target time scale runs from 1 down to minTimeScale as progress runs from 0 to 1. */
  lemma TargetTimeScaleProperties(c: SlowmoConfig, p: real, q: real)
    requires ValidConfig(c)
    ensures TargetTimeScale(c, 0.0) == 1.0 && TargetTimeScale(c, 1.0) == c.minTimeScale
    ensures 0.0 <= p <= 1.0 ==> c.minTimeScale <= TargetTimeScale(c, p) <= 1.0
    ensures p <= q ==> TargetTimeScale(c, q) <= TargetTimeScale(c, p)
  {
    if 0.0 <= p <= 1.0 {
      LerpBetween(1.0, c.minTimeScale, p);
    }
    NonNegProduct(1.0 - c.minTimeScale, q - p);
  }

  lemma SquareMonotone(a: real, b: real)
    requires 0.0 <= a <= b
    ensures a * a <= b * b
  {
    NonNegProduct(b - a, b + a);
    assert b * b - a * a == (b - a) * (b + a);
  }

  /** The ease starts at 0, ends at 1, stays in [0, 1] and never goes back. */
  lemma EaseOutProperties(r1: real, r2: real)
    ensures EaseOut(0.0) == 0.0 && EaseOut(1.0) == 1.0
    ensures 0.0 <= r1 <= 1.0 ==> 0.0 <= EaseOut(r1) <= 1.0
    ensures 0.0 <= r1 <= r2 <= 1.0 ==> EaseOut(r1) <= EaseOut(r2)
  {
    if 0.0 <= r1 <= 1.0 {
      SquareMonotone(1.0 - r1, 1.0);
      NonNegProduct(1.0 - r1, 1.0 - r1);
    }
    if 0.0 <= r1 <= r2 <= 1.0 {
      SquareMonotone(1.0 - r2, 1.0 - r1);
    }
  }

  /** A started release fraction lies in [0, 1] and grows with time. */
  lemma ReleaseFractionProperties(c: SlowmoConfig, e1: real, e2: real)
    requires ValidConfig(c)
    ensures e1 >= 0.0 ==> 0.0 <= ReleaseFraction(c, e1) <= 1.0
    ensures e1 >= c.releaseEaseDuration ==> ReleaseFraction(c, e1) == 1.0
    ensures e1 <= e2 ==> ReleaseFraction(c, e1) <= ReleaseFraction(c, e2)
  {
    if e1 >= 0.0 {
      DivideNonNegative(e1, c.releaseEaseDuration);
    }
    if e1 >= c.releaseEaseDuration {
      DivideAtLeastOne(e1, c.releaseEaseDuration);
    }
    if e1 <= e2 {
      DivideMonotone(e1, e2, c.releaseEaseDuration);
    }
  }

  /** During a release the progress lies between 0 and where the release began, and never rises. */
  lemma ReleaseLevelProperties(c: SlowmoConfig, s: SlowmoState, now1: real, now2: real)
    requires ValidConfig(c) && 0.0 <= s.progressAtRelease
    requires s.releaseStartTime <= now1 <= now2
    ensures 0.0 <= ReleaseLevel(c, s, now1) <= s.progressAtRelease
    ensures ReleaseLevel(c, s, now2) <= ReleaseLevel(c, s, now1)
  {
    var e1 := (now1 - s.releaseStartTime) / 1000.0;
    var e2 := (now2 - s.releaseStartTime) / 1000.0;
    ReleaseFractionProperties(c, e1, e2);
    ReleaseFractionProperties(c, e2, e2);
    var r1 := ReleaseFraction(c, e1);
    var r2 := ReleaseFraction(c, e2);
    EaseOutProperties(r1, r2);
    EaseOutProperties(r2, r2);
    LerpBetween(s.progressAtRelease, 0.0, EaseOut(r1));
    NonNegProduct(s.progressAtRelease, EaseOut(r2) - EaseOut(r1));
  }

  /** Leftover progress fades without going below 0 or rising. */
  lemma DecayProperties(p: real, dt: real)
    requires p >= 0.0 && dt >= 0.0
    ensures 0.0 <= Decay(p, dt) <= p
    ensures dt * 2.0 >= p ==> Decay(p, dt) == 0.0
  {
  }

  /** With the invariant, a frame with neither a hold nor a release changes nothing: the fade branch never runs. */
  lemma IdleFrameIsRest(c: SlowmoConfig, s: SlowmoState, dt: real, now: real, f: real)
    requires ValidConfig(c) && Inv(c, s) && !s.isHolding && !s.isReleasing
    ensures Advance(c, s, dt, now) == s
    ensures Step(c, s, dt, now, f).progress == 0.0
  {
  }

  /** The smoothed time scale lies between its old value and the target. */
  lemma SmoothingBetween(c: SlowmoConfig, s: SlowmoState, dt: real, now: real, f: real)
    requires ValidConfig(c) && 0.0 <= f <= 1.0
    ensures var a := Advance(c, s, dt, now);
      var t := Step(c, s, dt, now, f).currentTimeScale;
      (a.currentTimeScale <= a.targetTimeScale ==> a.currentTimeScale <= t <= a.targetTimeScale) &&
      (a.targetTimeScale <= a.currentTimeScale ==> a.targetTimeScale <= t <= a.currentTimeScale)
  {
    var a := Advance(c, s, dt, now);
    LerpBetween(a.currentTimeScale, a.targetTimeScale, f);
  }

  /** update keeps the invariant. */
  lemma StepPreservesInv(c: SlowmoConfig, s: SlowmoState, dt: real, now: real, f: real)
    requires ValidConfig(c) && Inv(c, s) && 0.0 <= f <= 1.0
    requires s.isReleasing ==> now >= s.releaseStartTime
    ensures Inv(c, Step(c, s, dt, now, f))
  {
    var a := Advance(c, s, dt, now);
    if s.isHolding {
      var elapsed := (now - s.holdStartTime) / 1000.0;
      HoldProgressProperties(c, elapsed, elapsed);
      TargetTimeScaleProperties(c, HoldProgress(c, elapsed), 1.0);
    } else if s.isReleasing {
      var e := (now - s.releaseStartTime) / 1000.0;
      DivideNonNegative(now - s.releaseStartTime, 1000.0);
      ReleaseFractionProperties(c, e, e);
      ReleaseLevelProperties(c, s, now, now);
    }
    assert Inv(c, a.(currentTimeScale := s.currentTimeScale));
    SmoothingBetween(c, s, dt, now, f);
  }

  /** A hold held for the delay plus the ramp has reached full effect and asks for the minimum time scale. */
  lemma HoldReachesFullEffect(c: SlowmoConfig, s: SlowmoState, dt: real, now: real, f: real)
    requires ValidConfig(c) && s.isHolding
    requires now - s.holdStartTime >= (c.holdDelay + c.holdDuration) * 1000.0
    ensures Step(c, s, dt, now, f).progress == 1.0
    ensures Step(c, s, dt, now, f).targetTimeScale == c.minTimeScale
  {
    var elapsed := (now - s.holdStartTime) / 1000.0;
    DivideMonotone((c.holdDelay + c.holdDuration) * 1000.0, now - s.holdStartTime, 1000.0);
    HoldProgressProperties(c, elapsed, elapsed);
    TargetTimeScaleProperties(c, 1.0, 1.0);
  }

  /** Once the release ease has run its course the effect is back at rest. */
  lemma ReleaseCompletes(c: SlowmoConfig, s: SlowmoState, dt: real, now: real, f: real)
    requires ValidConfig(c) && s.isReleasing && !s.isHolding
    requires now - s.releaseStartTime >= c.releaseEaseDuration * 1000.0
    ensures var t := Step(c, s, dt, now, f);
      !t.isReleasing && !t.isHolding && t.progress == 0.0 && t.progressAtRelease == 0.0
  {
    var e := (now - s.releaseStartTime) / 1000.0;
    DivideMonotone(c.releaseEaseDuration * 1000.0, now - s.releaseStartTime, 1000.0);
    ReleaseFractionProperties(c, e, e);
  }

  /** Between two frames of one release the progress does not rise, even when the second frame ends the release. */
  lemma ReleaseNonIncreasing(c: SlowmoConfig, s: SlowmoState, dt1: real, dt2: real, now1: real, now2: real, f1: real, f2: real)
    requires ValidConfig(c) && Inv(c, s) && s.isReleasing && 0.0 <= f1 <= 1.0
    requires s.releaseStartTime <= now1 <= now2
    ensures var s1 := Step(c, s, dt1, now1, f1);
      Step(c, s1, dt2, now2, f2).progress <= s1.progress
  {
    var s1 := Step(c, s, dt1, now1, f1);
    StepPreservesInv(c, s, dt1, now1, f1);
    if s1.isReleasing {
      assert s1.releaseStartTime == s.releaseStartTime && s1.progressAtRelease == s.progressAtRelease;
      ReleaseLevelProperties(c, s, now1, now2);
      assert ReleaseLevel(c, s1, now2) == ReleaseLevel(c, s, now2);
    }
  }

  // ---------------------------------------------------------------------------
  // Input events.

  datatype InputEvent = PointerDown | PointerUp | KeyDown(code: string, repeat: bool) | KeyUp(code: string)

  /** The state after a handler ran, and whether it called preventDefault. */
  datatype Handled = Handled(state: SlowmoState, prevented: bool)

  predicate IsPress(e: InputEvent)
  {
    e.PointerDown? || (e.KeyDown? && e.code == "Space" && !e.repeat)
  }

  predicate IsRelease(e: InputEvent)
  {
    e.PointerUp? || (e.KeyUp? && e.code == "Space")
  }

  /** What the four window listeners do to the state. */
  function AfterEvent(s: SlowmoState, e: InputEvent, now: real): Handled
  {
    match e
    case PointerDown => if !s.isHolding then Handled(AfterStartHold(s, now), false) else Handled(s, false)
    case PointerUp => if s.isHolding then Handled(AfterEndHold(s, now), false) else Handled(s, false)
    case KeyDown(code, repeat) =>
      if code == "Space" && !s.isHolding && !repeat then Handled(AfterStartHold(s, now), true) else Handled(s, false)
    case KeyUp(code) =>
      if code == "Space" && s.isHolding then Handled(AfterEndHold(s, now), true) else Handled(s, false)
  }

  /**
   * A press starts a hold only when none is going on, a release ends one
   * only when one is going on, every other event changes nothing, and
   * preventDefault is called exactly when a Space key event changed the state.
   */
  lemma HandleEventProperties(s: SlowmoState, e: InputEvent, now: real)
    ensures var h := AfterEvent(s, e, now);
      (IsPress(e) && !s.isHolding ==>
        h.state.isHolding && !h.state.isReleasing && h.state.holdStartTime == now && h.state.holdElapsed == 0.0 &&
        h.state.progress == s.progress) &&
      (IsRelease(e) && s.isHolding ==>
        !h.state.isHolding && h.state.isReleasing && h.state.releaseStartTime == now &&
        h.state.progressAtRelease == s.progress && h.state.releaseProgress == 0.0 && h.state.targetTimeScale == 1.0) &&
      (!((IsPress(e) && !s.isHolding) || (IsRelease(e) && s.isHolding)) ==> h.state == s) &&
      (h.prevented <==> (e.KeyDown? || e.KeyUp?) && h.state != s)
  {
  }

  /** Every handler keeps the invariant. */
  lemma HandleEventPreservesInv(c: SlowmoConfig, s: SlowmoState, e: InputEvent, now: real)
    requires Inv(c, s)
    ensures Inv(c, AfterEvent(s, e, now).state)
  {
  }

  // ---------------------------------------------------------------------------
  // What the progress drives.

  /** The afterimage pass runs only above a small progress threshold. */
  predicate AfterimageEnabled(p: real)
  {
    p > 0.001
  }

  /** The afterimage damping: cleared faster in the last part of a release, else from default towards trail damping. */
  function DampValue(c: SlowmoConfig, isReleasing: bool, p: real): real
  {
    if isReleasing && p < 0.3 then Lerp(0.5, c.trailDamp, p / 0.3) else Lerp(c.defaultDamp, c.trailDamp, p)
  }

  /** The audio playback rate: snapped to 1 near zero progress, else the target time scale. */
  function AudioRate(c: SlowmoConfig, p: real): real
  {
    if p < 0.01 then 1.0 else Lerp(1.0, c.minTimeScale, p)
  }

  /**
   * The damping stays within [0.5, defaultDamp], and during the last part
   * of a release it is never above what a hold at the same progress uses.
   */
  lemma DampProperties(c: SlowmoConfig, isReleasing: bool, p: real)
    requires ValidConfig(c) && 0.0 <= p <= 1.0
    ensures 0.5 <= DampValue(c, isReleasing, p) <= c.defaultDamp
    ensures DampValue(c, true, p) <= DampValue(c, false, p)
  {
    LerpBetween(c.defaultDamp, c.trailDamp, p);
    if p < 0.3 {
      DivideNonNegative(p, 0.3);
      LerpBetween(0.5, c.trailDamp, p / 0.3);
    }
  }

  /** The playback rate stays in [minTimeScale, 1], is 1 at rest and otherwise matches the target time scale. */
  lemma AudioRateProperties(c: SlowmoConfig, p: real)
    requires ValidConfig(c) && 0.0 <= p <= 1.0
    ensures c.minTimeScale <= AudioRate(c, p) <= 1.0
    ensures p < 0.01 ==> AudioRate(c, p) == 1.0
    ensures p >= 0.01 ==> AudioRate(c, p) == TargetTimeScale(c, p)
  {
    TargetTimeScaleProperties(c, p, p);
  }

  /** At rest nothing of the effect shows: no afterimage, no shift, no vignette, normal audio. */
  lemma RestShowsNothing(c: SlowmoConfig, s: SlowmoState)
    requires Inv(c, s) && !s.isHolding && !s.isReleasing
    ensures !AfterimageEnabled(s.progress) && AudioRate(c, s.progress) == 1.0
    ensures Lerp(0.0, c.maxRGBShift, s.progress) == 0.0 && Lerp(0.0, c.maxVignette, s.progress) == 0.0
  {
  }

  // ---------------------------------------------------------------------------
  // The effect object.

  class SlowmoEffect {
    const config: SlowmoConfig
    /** Whether an audio element and a custom chromatic aberration pass were supplied. */
    const hasAudio: bool
    const hasAberrationPass: bool

    var isHolding: bool
    var holdStartTime: real
    var holdElapsed: real
    var progress: real
    var progressAtRelease: real
    var targetTimeScale: real
    var currentTimeScale: real
    var releaseStartTime: real
    var releaseProgress: real
    var isReleasing: bool

    // What update writes into the passes, the audio element and the camera.
    var afterimageEnabled: bool
    var damp: real
    var rgbShiftAmount: real
    /** The custom pass's uAberration, once this effect has set it. */
    var aberration: Option<real>
    var vignetteIntensity: real
    /** The audio element's playbackRate, once this effect has set it. */
    var playbackRate: Option<real>
    var fov: real

    function State(): SlowmoState
      reads this
    {
      SlowmoState(isHolding, holdStartTime, holdElapsed, progress, progressAtRelease,
                  targetTimeScale, currentTimeScale, releaseStartTime, releaseProgress, isReleasing)
    }

    ghost predicate Valid()
      reads this
    {
      ValidConfig(config) && Inv(config, State())
    }

    /**
     * The effect starts at rest. The camera keeps the field of view it has,
     * which with the built-in configuration is baseFOV.
     */
    constructor (config: SlowmoConfig, cameraFov: real, hasAudio: bool, hasAberrationPass: bool)
      requires ValidConfig(config)
      ensures Valid() && State() == InitialState()
      ensures this.config == config && this.hasAudio == hasAudio && this.hasAberrationPass == hasAberrationPass
      ensures !afterimageEnabled && damp == config.defaultDamp && rgbShiftAmount == 0.0 && vignetteIntensity == 0.0
      ensures aberration == None && playbackRate == None && fov == cameraFov
    {
      this.config := config;
      this.hasAudio := hasAudio;
      this.hasAberrationPass := hasAberrationPass;
      isHolding, holdStartTime, holdElapsed := false, 0.0, 0.0;
      progress, progressAtRelease := 0.0, 0.0;
      targetTimeScale, currentTimeScale := 1.0, 1.0;
      releaseStartTime, releaseProgress, isReleasing := 0.0, 0.0, false;
      afterimageEnabled, damp := false, config.defaultDamp;
      rgbShiftAmount, aberration, vignetteIntensity := 0.0, None, 0.0;
      playbackRate, fov := None, cameraFov;
    }

    method StartHold(now: real)
      requires Valid()
      modifies this
      ensures Valid() && State() == AfterStartHold(old(State()), now)
      ensures Effects() == old(Effects())
    {
      isHolding := true;
      isReleasing := false;
      holdStartTime := now;
      holdElapsed := 0.0;
    }

    method EndHold(now: real)
      requires Valid()
      modifies this
      ensures Valid() && State() == AfterEndHold(old(State()), now)
      ensures Effects() == old(Effects())
    {
      isHolding := false;
      isReleasing := true;
      releaseStartTime := now;
      releaseProgress := 0.0;
      progressAtRelease := progress;
      targetTimeScale := 1.0;
    }

    /** The four listeners; the result says whether preventDefault was called. */
    method HandleEvent(e: InputEvent, now: real) returns (prevented: bool)
      requires Valid()
      modifies this
      ensures Valid() && Handled(State(), prevented) == AfterEvent(old(State()), e, now)
      ensures Effects() == old(Effects())
    {
      HandleEventPreservesInv(config, State(), e, now);
      prevented := false;
      match e
      case PointerDown =>
        if !isHolding {
          StartHold(now);
        }
      case PointerUp =>
        if isHolding {
          EndHold(now);
        }
      case KeyDown(code, repeat) =>
        if code == "Space" && !isHolding && !repeat {
          prevented := true;
          StartHold(now);
        }
      case KeyUp(code) =>
        if code == "Space" && isHolding {
          prevented := true;
          EndHold(now);
        }
    }

    /** Everything update writes besides the state. */
    function Effects(): (bool, real, real, Option<real>, real, Option<real>, real)
      reads this
    {
      (afterimageEnabled, damp, rgbShiftAmount, aberration, vignetteIntensity, playbackRate, fov)
    }

    /**
     * update: advance the state, smooth the time scale, drive the passes,
     * the audio and the camera from the new progress, and return the time
     * scale. lerpFactor is 1 - exp(-easeK * deltaTime).
     */
    method Update(deltaTime: real, now: real, lerpFactor: real) returns (timeScale: real)
      requires Valid() && 0.0 <= lerpFactor <= 1.0
      requires isReleasing ==> now >= releaseStartTime
      modifies this
      ensures Valid() && State() == Step(config, old(State()), deltaTime, now, lerpFactor)
      ensures timeScale == currentTimeScale
      ensures afterimageEnabled == AfterimageEnabled(progress)
      ensures damp == (if afterimageEnabled then DampValue(config, isReleasing, progress) else old(damp))
      ensures rgbShiftAmount == Lerp(0.0, config.maxRGBShift, progress)
      ensures aberration == (if hasAberrationPass then Some(Lerp(0.0, config.maxCustomAberration, progress)) else old(aberration))
      ensures vignetteIntensity == Lerp(0.0, config.maxVignette, progress)
      ensures playbackRate == (if hasAudio then Some(AudioRate(config, progress)) else old(playbackRate))
      ensures fov == Lerp(old(fov), config.baseFOV + config.maxFOVChange * progress, 0.1)
    {
      StepPreservesInv(config, State(), deltaTime, now, lerpFactor);
      AdvanceProgress(deltaTime, now);
      currentTimeScale := Lerp(currentTimeScale, targetTimeScale, lerpFactor);
      UpdateEffects();
      UpdateAudio();
      UpdateCamera();
      timeScale := currentTimeScale;
    }

    /**
     * The first part of update: the hold, release or leftover-fade branch.
     * The audio element is reset to normal speed when a release ends or the
     * fade reaches 0.
     */
    method AdvanceProgress(deltaTime: real, now: real)
      requires ValidConfig(config)
      modifies this
      ensures State() == Advance(config, old(State()), deltaTime, now)
      ensures afterimageEnabled == old(afterimageEnabled) && damp == old(damp) && rgbShiftAmount == old(rgbShiftAmount)
      ensures aberration == old(aberration) && vignetteIntensity == old(vignetteIntensity) && fov == old(fov)
      ensures playbackRate ==
        if hasAudio && !old(isHolding) &&
           ((old(isReleasing) && !isReleasing) || (!old(isReleasing) && old(progress) > 0.0 && progress == 0.0))
        then Some(1.0) else old(playbackRate)
    {
      if isHolding {
        holdElapsed := (now - holdStartTime) / 1000.0;
        if holdElapsed < config.holdDelay {
          progress := 0.0;
        } else {
          var effectiveHoldTime := holdElapsed - config.holdDelay;
          progress := Min(effectiveHoldTime / config.holdDuration, 1.0);
        }
        targetTimeScale := Lerp(1.0, config.minTimeScale, progress);
      } else if isReleasing {
        var releaseElapsed := (now - releaseStartTime) / 1000.0;
        releaseProgress := Min(releaseElapsed / config.releaseEaseDuration, 1.0);
        var eased := 1.0 - (1.0 - releaseProgress) * (1.0 - releaseProgress);
        progress := Lerp(progressAtRelease, 0.0, eased);
        if releaseProgress >= 1.0 {
          isReleasing := false;
          progress := 0.0;
          progressAtRelease := 0.0;
          if hasAudio {
            playbackRate := Some(1.0);
          }
        }
      } else if progress > 0.0 {
        progress := Max(0.0, progress - deltaTime * 2.0);
        if progress == 0.0 && hasAudio {
          playbackRate := Some(1.0);
        }
      }
    }

    /** updateEffects. */
    method UpdateEffects()
      modifies this
      ensures State() == old(State()) && playbackRate == old(playbackRate) && fov == old(fov)
      ensures afterimageEnabled == AfterimageEnabled(progress)
      ensures damp == (if afterimageEnabled then DampValue(config, isReleasing, progress) else old(damp))
      ensures rgbShiftAmount == Lerp(0.0, config.maxRGBShift, progress)
      ensures aberration == (if hasAberrationPass then Some(Lerp(0.0, config.maxCustomAberration, progress)) else old(aberration))
      ensures vignetteIntensity == Lerp(0.0, config.maxVignette, progress)
    {
      if progress > 0.001 {
        afterimageEnabled := true;
        var dampValue;
        if isReleasing && progress < 0.3 {
          dampValue := Lerp(0.5, config.trailDamp, progress / 0.3);
        } else {
          dampValue := Lerp(config.defaultDamp, config.trailDamp, progress);
        }
        damp := dampValue;
      } else {
        afterimageEnabled := false;
      }
      rgbShiftAmount := Lerp(0.0, config.maxRGBShift, progress);
      if hasAberrationPass {
        aberration := Some(Lerp(0.0, config.maxCustomAberration, progress));
      }
      vignetteIntensity := Lerp(0.0, config.maxVignette, progress);
    }

    /** updateAudio: nothing without an audio element. */
    method UpdateAudio()
      modifies this
      ensures State() == old(State()) && fov == old(fov)
      ensures afterimageEnabled == old(afterimageEnabled) && damp == old(damp) && rgbShiftAmount == old(rgbShiftAmount)
      ensures aberration == old(aberration) && vignetteIntensity == old(vignetteIntensity)
      ensures playbackRate == (if hasAudio then Some(AudioRate(config, progress)) else old(playbackRate))
    {
      if !hasAudio {
        return;
      }
      var targetRate;
      if progress < 0.01 {
        targetRate := 1.0;
      } else {
        targetRate := Lerp(1.0, config.minTimeScale, progress);
      }
      playbackRate := Some(targetRate);
    }

    /** updateCamera: a tenth of the way towards the field of view the progress asks for. */
    method UpdateCamera()
      modifies this
      ensures State() == old(State()) && playbackRate == old(playbackRate)
      ensures afterimageEnabled == old(afterimageEnabled) && damp == old(damp) && rgbShiftAmount == old(rgbShiftAmount)
      ensures aberration == old(aberration) && vignetteIntensity == old(vignetteIntensity)
      ensures fov == Lerp(old(fov), config.baseFOV + config.maxFOVChange * progress, 0.1)
    {
      var targetFOV := config.baseFOV + config.maxFOVChange * progress;
      fov := Lerp(fov, targetFOV, 0.1);
    }
  }
}
