/**
 * The box lifecycle (Box.cs). Each frame a box reads its z rotation and its
 * speeds from the physics engine; it topples past an angle threshold (awarding
 * points once), then waits for a stretch of stillness, then fades out and is
 * destroyed.
 *
 * The per-frame logic is stated first as pure functions (Step, Run) over a
 * Lifecycle value; the class Box below keeps the same fields as the script and
 * its Update is proved to follow Step.
 */
module Boxes {
  import opened Mathf
  import opened Wrappers
  import Score

  /** Impact speed a collision must exceed to play the impact clip. */
  const ImpactSoundSpeed: real := 2.0
  /** Impact speed heard at full volume. */
  const FullVolumeSpeed: real := 10.0

  /** The serialized settings that drive the state machine. */
  datatype Settings = Settings(toppleThreshold: real, settleThreshold: real, settleTime: real, pointValue: int)

  /** The fields the script updates every frame. */
  datatype Lifecycle = Lifecycle(isToppled: bool, hasBeenToppled: bool, isSettled: bool, settleTimer: real)

  const Upright := Lifecycle(false, false, false, 0.0)

  /**
   * What the engine supplies for one frame: the z Euler angle in degrees, the
   * linear speed, the angular velocity, Time.deltaTime, and whether
   * ScoreManager.Instance is set.
   */
  datatype Frame = Frame(zAngle: real, speed: real, angularSpeed: real, dt: real, scoreManagerPresent: bool)

  /** The new state, whether OnToppled ran, the points it added, and whether the fade coroutine was started. */
  datatype Outcome = Outcome(next: Lifecycle, toppledNow: bool, awarded: int, fadeStarted: bool)

  /** Absolute deflection from upright: values above 180 degrees are measured the other way round. */
  function Deflection(zAngle: real): (d: real)
    ensures 0.0 <= zAngle < 360.0 ==> 0.0 <= d <= 180.0 && d == Min(zAngle, 360.0 - zAngle)
  {
    var a := Abs(zAngle);
    if a > 180.0 then 360.0 - a else a
  }

  /** Still means both speeds strictly below the threshold, the angular one in either direction. */
  predicate IsStill(speed: real, angularSpeed: real, threshold: real)
    ensures IsStill(speed, angularSpeed, threshold) <==>
      speed < threshold && -threshold < angularSpeed < threshold
  {
    speed < threshold && Abs(angularSpeed) < threshold
  }

  /** CheckIfToppled with OnToppled folded in; the flag says whether OnToppled ran. */
  function ToppleCheck(s: Lifecycle, threshold: real, zAngle: real): (r: (Lifecycle, bool))
    ensures r.0.isToppled == (Deflection(zAngle) > threshold)
    ensures r.1 <==> r.0.isToppled && !s.isToppled && !s.hasBeenToppled
    ensures r.0.hasBeenToppled == (s.hasBeenToppled || r.1)
    ensures s.hasBeenToppled ==> !r.1
    ensures r.0.isSettled == s.isSettled && r.0.settleTimer == s.settleTimer
  {
    var toppled := Deflection(zAngle) > threshold;
    var edge := toppled && !s.isToppled && !s.hasBeenToppled;
    (s.(isToppled := toppled, hasBeenToppled := s.hasBeenToppled || edge), edge)
  }

  /** CheckIfSettled; the flag says whether the fade-out coroutine was started. */
  function SettleCheck(s: Lifecycle, cfg: Settings, speed: real, angularSpeed: real, dt: real): (r: (Lifecycle, bool))
    ensures IsStill(speed, angularSpeed, cfg.settleThreshold) ==> r.0.settleTimer == s.settleTimer + dt
    ensures !IsStill(speed, angularSpeed, cfg.settleThreshold) ==> r.0.settleTimer == 0.0
    ensures r.1 <==> IsStill(speed, angularSpeed, cfg.settleThreshold) && s.settleTimer + dt >= cfg.settleTime
    ensures r.1 ==> r.0.settleTimer >= cfg.settleTime
    ensures r.0.isSettled == (s.isSettled || r.1)
    ensures r.0.isToppled == s.isToppled && r.0.hasBeenToppled == s.hasBeenToppled
  {
    if IsStill(speed, angularSpeed, cfg.settleThreshold) then
      var timer := s.settleTimer + dt;
      if timer >= cfg.settleTime then (s.(settleTimer := timer, isSettled := true), true)
      else (s.(settleTimer := timer), false)
    else
      (s.(settleTimer := 0.0), false)
  }

  /** One call of Update: the topple check, then the settle check while toppled and not yet settled. */
  function Step(cfg: Settings, s: Lifecycle, f: Frame): (r: Outcome)
    // isToppled is recomputed every frame, so it falls back to false when the box rights itself
    ensures r.next.isToppled == (Deflection(f.zAngle) > cfg.toppleThreshold)
    // OnToppled runs only on a rising edge of a box that never toppled before
    ensures r.toppledNow <==> r.next.isToppled && !s.isToppled && !s.hasBeenToppled
    ensures r.next.hasBeenToppled == (s.hasBeenToppled || r.toppledNow)
    ensures r.awarded == if r.toppledNow && f.scoreManagerPresent then cfg.pointValue else 0
    // the settle check also runs on the frame of toppling
    ensures r.next.hasBeenToppled && !s.isSettled ==>
      r.next.settleTimer == (if IsStill(f.speed, f.angularSpeed, cfg.settleThreshold) then s.settleTimer + f.dt else 0.0) &&
      r.next.isSettled == r.fadeStarted &&
      (r.fadeStarted <==> IsStill(f.speed, f.angularSpeed, cfg.settleThreshold) && s.settleTimer + f.dt >= cfg.settleTime)
    ensures !(r.next.hasBeenToppled && !s.isSettled) ==>
      r.next.settleTimer == s.settleTimer && r.next.isSettled == s.isSettled && !r.fadeStarted
  {
    var (t, toppled) := ToppleCheck(s, cfg.toppleThreshold, f.zAngle);
    var awarded := if toppled && f.scoreManagerPresent then cfg.pointValue else 0;
    if t.hasBeenToppled && !t.isSettled then
      var (u, fade) := SettleCheck(t, cfg, f.speed, f.angularSpeed, f.dt);
      Outcome(u, toppled, awarded, fade)
    else
      Outcome(t, toppled, awarded, false)
  }

  /** The relations between the flags that every reachable state satisfies. */
  predicate Consistent(s: Lifecycle)
  {
    (s.isToppled ==> s.hasBeenToppled) &&
    (s.isSettled ==> s.hasBeenToppled) &&
    0.0 <= s.settleTimer &&
    (!s.hasBeenToppled ==> s.settleTimer == 0.0)
  }

  /** Step keeps the flags consistent when time does not run backwards. */
  lemma StepKeepsConsistent(cfg: Settings, s: Lifecycle, f: Frame)
    requires Consistent(s) && f.dt >= 0.0
    ensures Consistent(Step(cfg, s, f).next)
  {
  }

  /** In a consistent state, points are awarded exactly when the deflection first exceeds the threshold. */
  lemma ToppleIsFirstCrossing(cfg: Settings, s: Lifecycle, f: Frame)
    requires Consistent(s)
    ensures Step(cfg, s, f).toppledNow <==> Deflection(f.zAngle) > cfg.toppleThreshold && !s.hasBeenToppled
  {
  }

  /** The result of running Update over a sequence of frames: final state and counts of events. */
  datatype History = History(final: Lifecycle, topples: nat, awarded: int, fades: nat)

  function Run(cfg: Settings, s: Lifecycle, frames: seq<Frame>): (h: History)
    ensures s.hasBeenToppled ==> h.final.hasBeenToppled
    ensures s.isSettled ==> h.final.isSettled
    ensures h.topples <= |frames| && h.fades <= |frames|
    decreases |frames|
  {
    if frames == [] then History(s, 0, 0, 0)
    else
      var h := Run(cfg, s, frames[..|frames| - 1]);
      var o := Step(cfg, h.final, frames[|frames| - 1]);
      History(o.next,
              h.topples + (if o.toppledNow then 1 else 0),
              h.awarded + o.awarded,
              h.fades + (if o.fadeStarted then 1 else 0))
  }

  /**
   * Over any sequence of frames a box topples at most once, hasBeenToppled never
   * goes back to false, and the points added are either nothing or PointValue
   * once; when the score manager is there on every frame they are PointValue
   * exactly when the box toppled.
   */
  lemma {:induction false} RunTopplesAtMostOnce(cfg: Settings, s: Lifecycle, frames: seq<Frame>)
    ensures var h := Run(cfg, s, frames);
      h.topples <= 1 &&
      h.final.hasBeenToppled == (s.hasBeenToppled || h.topples == 1) &&
      (s.hasBeenToppled ==> h.topples == 0) &&
      (h.awarded == 0 || h.awarded == cfg.pointValue) &&
      (h.topples == 0 ==> h.awarded == 0)
    ensures (forall i :: 0 <= i < |frames| ==> frames[i].scoreManagerPresent) ==>
      Run(cfg, s, frames).awarded == Run(cfg, s, frames).topples * cfg.pointValue
    decreases |frames|
  {
    if frames != [] {
      var init := frames[..|frames| - 1];
      RunTopplesAtMostOnce(cfg, s, init);
      if forall i :: 0 <= i < |frames| ==> frames[i].scoreManagerPresent {
        assert forall i :: 0 <= i < |init| ==> init[i].scoreManagerPresent by {
          forall i | 0 <= i < |init| ensures init[i].scoreManagerPresent {
            assert init[i] == frames[i];
          }
        }
      }
    }
  }

  /**
   * The fade is started at most once, only for a box that has toppled, and isSettled
   * never goes back to false. A box that never topples never settles.
   */
  lemma {:induction false} RunSettlesAtMostOnce(cfg: Settings, s: Lifecycle, frames: seq<Frame>)
    ensures var h := Run(cfg, s, frames);
      h.fades <= 1 &&
      h.final.isSettled == (s.isSettled || h.fades == 1) &&
      (s.isSettled ==> h.fades == 0) &&
      (h.fades == 1 ==> h.final.hasBeenToppled)
    decreases |frames|
  {
    if frames != [] {
      var init := frames[..|frames| - 1];
      RunSettlesAtMostOnce(cfg, s, init);
      RunTopplesAtMostOnce(cfg, s, init);
    }
  }

  /**
   * Seconds of uninterrupted stillness at the end of frames, counting `carried`
   * seconds already accumulated when every frame was still.
   */
  function StillTime(threshold: real, carried: real, frames: seq<Frame>): real
    decreases |frames|
  {
    if frames == [] then carried
    else
      var f := frames[|frames| - 1];
      if IsStill(f.speed, f.angularSpeed, threshold) then StillTime(threshold, carried, frames[..|frames| - 1]) + f.dt
      else 0.0
  }

  /**
   * For a box that has already toppled, the settle timer is the length of the
   * current run of still frames (any moving frame resets it), and the box
   * settles on the frame where that run, ending in a still frame, reaches settleTime.
   */
  lemma {:induction false} RunSettleTimer(cfg: Settings, s: Lifecycle, frames: seq<Frame>)
    requires s.hasBeenToppled
    ensures var h := Run(cfg, s, frames);
      !h.final.isSettled ==> h.final.settleTimer == StillTime(cfg.settleThreshold, s.settleTimer, frames)
    ensures frames != [] && !Run(cfg, s, frames[..|frames| - 1]).final.isSettled ==>
      var last := frames[|frames| - 1];
      (Run(cfg, s, frames).final.isSettled <==>
        IsStill(last.speed, last.angularSpeed, cfg.settleThreshold) &&
        StillTime(cfg.settleThreshold, s.settleTimer, frames) >= cfg.settleTime)
    decreases |frames|
  {
    if frames != [] {
      var init := frames[..|frames| - 1];
      RunSettleTimer(cfg, s, init);
      RunTopplesAtMostOnce(cfg, s, init);
      RunSettlesAtMostOnce(cfg, s, frames);
      RunSettlesAtMostOnce(cfg, s, init);
    }
  }

  /** A threshold of 30 degrees, a box tipped through 10 and 20 to 35 degrees: one topple, one award of 100. */
  lemma ToppleScenario()
    ensures var cfg := Settings(30.0, 0.1, 1.0, 100);
      var frames := [Frame(0.0, 1.0, 1.0, 0.02, true), Frame(10.0, 1.0, 1.0, 0.02, true),
                     Frame(20.0, 1.0, 1.0, 0.02, true), Frame(35.0, 1.0, 1.0, 0.02, true),
                     Frame(35.0, 1.0, 1.0, 0.02, true)];
      var h := Run(cfg, Upright, frames);
      h.topples == 1 && h.awarded == 100 && h.final.hasBeenToppled
  {
    var cfg := Settings(30.0, 0.1, 1.0, 100);
    var frames := [Frame(0.0, 1.0, 1.0, 0.02, true), Frame(10.0, 1.0, 1.0, 0.02, true),
                   Frame(20.0, 1.0, 1.0, 0.02, true), Frame(35.0, 1.0, 1.0, 0.02, true),
                   Frame(35.0, 1.0, 1.0, 0.02, true)];
    assert frames[..0] == [];
    assert Run(cfg, Upright, frames[..1]) == History(Upright, 0, 0, 0) by { assert frames[..1][..0] == []; }
    assert Run(cfg, Upright, frames[..2]) == History(Upright, 0, 0, 0) by { assert frames[..2][..1] == frames[..1]; }
    assert Run(cfg, Upright, frames[..3]) == History(Upright, 0, 0, 0) by { assert frames[..3][..2] == frames[..2]; }
    var toppled := Lifecycle(true, true, false, 0.0);
    assert Run(cfg, Upright, frames[..4]) == History(toppled, 1, 100, 0) by { assert frames[..4][..3] == frames[..3]; }
    assert frames[..5] == frames;
    assert Run(cfg, Upright, frames) == History(toppled, 1, 100, 0) by { assert frames[..4] == frames[..|frames| - 1]; }
  }

  /** Opacity written on a fade frame: Lerp(1, 0, elapsed / duration). */
  function FadeAlpha(elapsed: real, duration: real): (alpha: real)
    requires duration > 0.0
    ensures 0.0 <= alpha <= 1.0
    ensures elapsed >= duration ==> alpha == 0.0
    ensures elapsed <= 0.0 ==> alpha == 1.0
  {
    Lerp(1.0, 0.0, elapsed / duration)
  }

  /** Opacity never increases as time passes. */
  lemma FadeAlphaNonIncreasing(e1: real, e2: real, duration: real)
    requires duration > 0.0 && e1 <= e2
    ensures FadeAlpha(e2, duration) <= FadeAlpha(e1, duration)
  {
    DivideMonotone(e1, e2, duration);
  }

  lemma DivideMonotone(a: real, b: real, d: real)
    requires d > 0.0 && a <= b
    ensures a / d <= b / d
  {
  }

  /** Total of the frame times. */
  function Elapsed(deltas: seq<real>): real
    decreases |deltas|
  {
    if deltas == [] then 0.0 else Elapsed(deltas[..|deltas| - 1]) + deltas[|deltas| - 1]
  }

  predicate NonNegative(deltas: seq<real>)
  {
    forall i :: 0 <= i < |deltas| ==> deltas[i] >= 0.0
  }

  /** With non-negative frame times, elapsed time grows with the number of frames. */
  lemma {:induction false} ElapsedMonotone(deltas: seq<real>, i: nat, j: nat)
    requires NonNegative(deltas) && i <= j <= |deltas|
    ensures Elapsed(deltas[..i]) <= Elapsed(deltas[..j])
    decreases j - i
  {
    if i < j {
      ElapsedMonotone(deltas, i, j - 1);
      assert deltas[..j][..j - 1] == deltas[..j - 1];
    }
  }

  /** Mathf.Clamp01(speed / 10): the impact sound's volume. */
  function ImpactVolume(impactSpeed: real): (v: real)
    ensures 0.0 <= v <= 1.0
    ensures impactSpeed > ImpactSoundSpeed ==> v > 0.2
  {
    Clamp01(impactSpeed / FullVolumeSpeed)
  }

  class Box {
    var toppleThreshold: real
    const fadeOutDuration: real
    const settleThreshold: real
    const settleTime: real
    const pointValue: int
    /** Whether an impact clip, an AudioSource and a SpriteRenderer are attached. */
    const hasImpactSound: bool
    const hasAudioSource: bool
    const hasSpriteRenderer: bool

    var isToppled: bool
    var hasBeenToppled: bool
    var isSettled: bool
    var settleTimer: real

    function Config(): Settings
      reads this
    {
      Settings(toppleThreshold, settleThreshold, settleTime, pointValue)
    }

    function State(): Lifecycle
      reads this
    {
      Lifecycle(isToppled, hasBeenToppled, isSettled, settleTimer)
    }

    ghost predicate Valid()
      reads this
    {
      Consistent(State())
    }

    constructor (toppleThreshold: real, fadeOutDuration: real, settleThreshold: real, settleTime: real,
                 pointValue: int, hasImpactSound: bool, hasAudioSource: bool, hasSpriteRenderer: bool)
      ensures Valid() && State() == Upright
      ensures Config() == Settings(toppleThreshold, settleThreshold, settleTime, pointValue)
      ensures this.fadeOutDuration == fadeOutDuration && this.hasSpriteRenderer == hasSpriteRenderer
      ensures this.hasImpactSound == hasImpactSound && this.hasAudioSource == hasAudioSource
    {
      this.toppleThreshold := toppleThreshold;
      this.fadeOutDuration := fadeOutDuration;
      this.settleThreshold := settleThreshold;
      this.settleTime := settleTime;
      this.pointValue := pointValue;
      this.hasImpactSound := hasImpactSound;
      this.hasAudioSource := hasAudioSource;
      this.hasSpriteRenderer := hasSpriteRenderer;
      isToppled, hasBeenToppled, isSettled, settleTimer := false, false, false, 0.0;
    }

    /** The IsToppled property: the current reading, which implies HasBeenToppled. */
    function IsToppled(): (b: bool)
      reads this
      requires Valid()
      ensures b ==> HasBeenToppled()
    {
      isToppled
    }

    /** The HasBeenToppled property: while false, the box is in its initial state. */
    function HasBeenToppled(): (b: bool)
      reads this
      requires Valid()
      ensures !b ==> !isToppled && !isSettled && settleTimer == 0.0
    {
      hasBeenToppled
    }

    function PointValue(): (p: int)
      ensures p == Config().pointValue
    {
      pointValue
    }

    /**
     * One frame. `scores` is ScoreManager.Instance at that moment (null when
     * there is none); the fade started here is FadeOutAndDestroy below.
     */
    method Update(zAngle: real, speed: real, angularSpeed: real, dt: real, scores: Score.ScoreManager?)
      requires Valid() && dt >= 0.0
      requires scores != null && !hasBeenToppled ==> Score.InInt32(scores.currentScore + pointValue)
      modifies this, scores
      ensures Valid() && Config() == old(Config())
      ensures var o := Step(old(Config()), old(State()), Frame(zAngle, speed, angularSpeed, dt, scores != null));
        State() == o.next &&
        (scores != null && o.toppledNow ==>
          scores.currentScore == old(scores.currentScore) + pointValue &&
          scores.scoreText == Score.FormatD7(scores.currentScore)) &&
        (scores != null && !o.toppledNow ==> unchanged(scores))
    {
      CheckIfToppled(zAngle, scores);
      if hasBeenToppled && !isSettled {
        CheckIfSettled(speed, angularSpeed, dt);
      }
      StepKeepsConsistent(old(Config()), old(State()), Frame(zAngle, speed, angularSpeed, dt, scores != null));
    }

    method CheckIfToppled(zAngle: real, scores: Score.ScoreManager?)
      requires scores != null && !hasBeenToppled ==> Score.InInt32(scores.currentScore + pointValue)
      modifies this`isToppled, this`hasBeenToppled, scores
      ensures var (t, edge) := ToppleCheck(old(State()), toppleThreshold, zAngle);
        State() == t &&
        (scores != null && edge ==>
          scores.currentScore == old(scores.currentScore) + pointValue &&
          scores.scoreText == Score.FormatD7(scores.currentScore)) &&
        (scores != null && !edge ==> unchanged(scores))
    {
      var currentAngle := Deflection(zAngle);
      var wasToppled := isToppled;
      isToppled := currentAngle > toppleThreshold;
      if isToppled && !wasToppled && !hasBeenToppled {
        OnToppled(scores);
      }
    }

    method OnToppled(scores: Score.ScoreManager?)
      requires scores != null ==> Score.InInt32(scores.currentScore + pointValue)
      modifies this`hasBeenToppled, scores
      ensures hasBeenToppled
      ensures scores != null ==>
        scores.currentScore == old(scores.currentScore) + pointValue &&
        scores.scoreText == Score.FormatD7(scores.currentScore)
    {
      hasBeenToppled := true;
      if scores != null {
        scores.AddScore(PointValue());
      }
    }

    method CheckIfSettled(speed: real, angularSpeed: real, dt: real)
      modifies this`settleTimer, this`isSettled
      ensures State() == SettleCheck(old(State()), Config(), speed, angularSpeed, dt).0
    {
      var isStill := IsStill(speed, angularSpeed, settleThreshold);
      if isStill {
        settleTimer := settleTimer + dt;
        if settleTimer >= settleTime {
          isSettled := true;
        }
      } else {
        settleTimer := 0.0;
      }
    }

    /**
     * The impact sound gate: returns the volume of the PlayOneShot call, or None
     * when no sound is played.
     */
    method OnCollisionEnter2D(impactSpeed: real, audioPlaying: bool) returns (played: Option<real>)
      ensures played.Some? <==> hasImpactSound && hasAudioSource && impactSpeed > ImpactSoundSpeed && !audioPlaying
      ensures played.Some? ==> played.value == ImpactVolume(impactSpeed) && 0.2 < played.value <= 1.0
    {
      played := None;
      if hasImpactSound && hasAudioSource {
        if impactSpeed > ImpactSoundSpeed {
          if !audioPlaying {
            played := Some(ImpactVolume(impactSpeed));
          }
        }
      }
    }

    /**
     * The fade-out coroutine. deltas[k] is Time.deltaTime of the k-th frame it
     * runs in, the first being the frame that started it. Returns the opacities
     * written to the sprite, the number of frames it ran, and whether it reached
     * Destroy (it does not when the frames supplied run out first).
     */
    method FadeOutAndDestroy(deltas: seq<real>) returns (alphas: seq<real>, frames: nat, destroyed: bool)
      requires NonNegative(deltas)
      ensures frames <= |deltas|
      ensures frames > 0 ==> fadeOutDuration > 0.0
      ensures forall k :: 0 <= k < frames ==> Elapsed(deltas[..k]) < fadeOutDuration
      ensures destroyed <==> Elapsed(deltas[..frames]) >= fadeOutDuration
      ensures !destroyed ==> frames == |deltas|
      ensures |alphas| == if hasSpriteRenderer then frames else 0
      ensures forall k :: 0 <= k < |alphas| ==> alphas[k] == FadeAlpha(Elapsed(deltas[..k + 1]), fadeOutDuration)
      ensures forall j, k :: 0 <= j < k < |alphas| ==> alphas[k] <= alphas[j]
      ensures destroyed && alphas != [] ==> alphas[|alphas| - 1] == 0.0
    {
      var elapsedTime := 0.0;
      alphas := [];
      frames := 0;
      while elapsedTime < fadeOutDuration && frames < |deltas|
        invariant frames <= |deltas|
        invariant frames > 0 ==> fadeOutDuration > 0.0
        invariant elapsedTime == Elapsed(deltas[..frames])
        invariant forall k :: 0 <= k < frames ==> Elapsed(deltas[..k]) < fadeOutDuration
        invariant |alphas| == if hasSpriteRenderer then frames else 0
        invariant forall k :: 0 <= k < |alphas| ==> alphas[k] == FadeAlpha(Elapsed(deltas[..k + 1]), fadeOutDuration)
        decreases |deltas| - frames
      {
        assert deltas[..frames + 1][..frames] == deltas[..frames];
        ElapsedMonotone(deltas, 0, frames);
        elapsedTime := elapsedTime + deltas[frames];
        var alpha := FadeAlpha(elapsedTime, fadeOutDuration);
        if hasSpriteRenderer {
          alphas := alphas + [alpha];
        }
        frames := frames + 1;
      }
      destroyed := elapsedTime >= fadeOutDuration;
      forall j, k | 0 <= j < k < |alphas| ensures alphas[k] <= alphas[j] {
        ElapsedMonotone(deltas, j + 1, k + 1);
        FadeAlphaNonIncreasing(Elapsed(deltas[..j + 1]), Elapsed(deltas[..k + 1]), fadeOutDuration);
      }
    }

    method SetToppleThreshold(newThreshold: real)
      modifies this`toppleThreshold
      ensures toppleThreshold == newThreshold
    {
      toppleThreshold := newThreshold;
    }
  }
}
