# CannonBlaster game logic in Dafny

A model of the per-object logic of CannonBlaster, a small 2D Unity game. A cannon
fires projectiles at boxes. A box that tips past an angle topples and awards points.
Once it has been still for long enough it settles, then fades out and is destroyed.
The engine inputs become explicit parameters: the frame time step, the current time,
the z rotation, the speeds, which keys are held, and the collided object's layer.
Times and angles are `real`, not IEEE floats.

- `mathf.dfy` (module `Mathf`): the `Mathf.Abs`, `Clamp`, `Clamp01` and `Lerp` helpers
  the scripts call.
- `wrappers.dfy` (module `Wrappers`): `Option`.
- `score.dfy` (module `Score`, from `ScoreManager.cs`): the .NET `"D7"` formatter.
  It comes with a parser and proofs that the text reads back as the score and has the
  right width. `ScoreManager` is a class with the running total and the label text.
  `ScoreRegistry` stands for the static `Instance` field.
- `box.dfy` (module `Boxes`, from `Box.cs`): the frame step as a pure function `Step` over
  a `Lifecycle` value, and `Run` over a sequence of frames. Lemmas prove at-most-once
  toppling, scoring and settling, and that the settle timer tracks the current run of
  still frames. Class `Box` has the script's fields. Its `Update` is proved to follow
  `Step` and to call `AddScore` on the topple frame. Its fade coroutine is a loop over
  the frame times it runs in.
- `cannon.dfy` (module `Cannons`, from `Cannon.cs`): the rotation step and the cooldown
  gate, as pure functions with lemmas over input sequences. Class `Cannon` keeps
  `currentRotation`, `lastShootTime`, a ghost record of the angle applied to the barrel,
  and a log of spawned projectiles.
- `projectile.dfy` (module `Projectiles`, from `Projectile.cs`): the collision reaction as a
  pure function. Class `Projectile` records its engine calls as a log of effects.

Behaviour of the code that a reader might not expect, kept as written:

- `IsToppled` is recomputed every frame and goes back to false when a box rights itself.
  Only `HasBeenToppled` is latched (Box.cs:112).
- `_lastShootTime` starts at 0, so a fire request before `shootCooldown` seconds of game
  time is dropped. Requests at 0, 0.1 and 0.3 with cooldown 0.25 spawn one projectile,
  not two (`Cannons.FireScenario`).
- The cannon's starting angle 0 is not clamped. The angle is in `[minAngle, maxAngle]`
  only after a rotation step or `SetRotation` (`Cannons.RotationStaysClamped`).
- `AddScore` has no sign check, so the score may fall. `"D7"` then renders a `-` in front
  of the digits of the magnitude, zero-padded to at least seven.
- A projectile reacts to every collision, not only to the first one.
- A box that never topples never settles, so it is never removed (`Boxes.RunSettlesAtMostOnce`).

## Model

| member | source | states |
|---|---|---|
| Mathf.Clamp | Assets/Source/Cannon.cs:111 | For min <= max the result lies in [min, max]. A value already inside is kept. A value below min becomes min; otherwise a value above max becomes max, the lower bound being tested first. |
| Mathf.Clamp01 | Assets/Source/Box.cs:170 | The result is in [0, 1]. It is the input when the input is in [0, 1], 0 at or below 0, and 1 at or above 1. |
| Mathf.Lerp | Assets/Source/Box.cs:190 | For t in [0, 1] the result is a + (b - a) * t. It is a at t <= 0 and b at t >= 1, and always between b and a when b <= a. |
| Score.FormatD7 | Assets/Source/ScoreManager.cs:26 | The "D7" text has at least seven characters. For n >= 0 they are all digits. For n < 0 it is '-' followed by digits. |
| Score.FormatD7RoundTrip | Assets/Source/ScoreManager.cs:26 | The "D7" text of any integer parses back to that integer. |
| Score.FormatD7Shape | Assets/Source/ScoreManager.cs:26 | For 0 <= n < 10^7 the text is exactly 7 digits: zeros, then the digits of n. For n >= 10^7 it is the digits of n unpadded, more than 7 of them. A negative n renders as '-' followed by the text of -n, so its magnitude is zero-padded to at least 7 digits. |
| Score.DigitsLength | Assets/Source/ScoreManager.cs:26 | The decimal rendering of n has at most k digits exactly when n < 10^k. |
| Score.ParseDigitsOfDigits | Assets/Source/ScoreManager.cs:26 | The digits of n read back as n. |
| Score.ParseIgnoresLeadingZeros | Assets/Source/ScoreManager.cs:26 | Zero padding on the left does not change the value read back. |
| Score.ScoreRegistry.constructor | Assets/Source/ScoreManager.cs:12-13 | Before any manager wakes, Instance is null. |
| Score.ScoreManager.constructor | Assets/Source/ScoreManager.cs:6-9 | A loaded manager has score 0 and shows its authored label text. |
| Score.ScoreManager.Awake | Assets/Source/ScoreManager.cs:15-20 | The manager becomes Instance, so the last one to wake wins. The score is reset to 0 and the label is untouched. |
| Score.ScoreManager.AddScore | Assets/Source/ScoreManager.cs:22-27 | The score rises by exactly the points, with no sign check. The label becomes the "D7" text of the new score and parses back to it. |
| Boxes.Deflection | Assets/Source/Box.cs:104-108 | For a z angle in [0, 360) the deflection is min(z, 360 - z) and lies in [0, 180]. |
| Boxes.IsStill | Assets/Source/Box.cs:141 | Still iff the speed and the absolute angular speed are both strictly below the threshold. |
| Boxes.ToppleCheck | Assets/Source/Box.cs:101-119 | isToppled becomes deflection > threshold. OnToppled runs iff that reading rises from false while hasBeenToppled is false, never once hasBeenToppled is set, and it sets hasBeenToppled. The settle fields are untouched. |
| Boxes.SettleCheck | Assets/Source/Box.cs:135-159 | A still frame adds dt to the timer and any other frame resets it to 0. The fade starts iff the frame is still and the timer reaches settleTime, and isSettled is then set. The topple flags are untouched. |
| Boxes.Step | Assets/Source/Box.cs:91-159 | isToppled is recomputed each frame as deflection > threshold (strict). OnToppled runs only on a false-to-true edge while hasBeenToppled is false, and awards PointValue only if a score manager exists. The settle check runs whenever the box is toppled and not yet settled, including the topple frame. A still frame adds dt and any other frame resets the timer to 0. The fade starts exactly when the timer reaches settleTime. |
| Boxes.StepKeepsConsistent | Assets/Source/Box.cs:111-158 | With dt >= 0 a frame keeps the flags consistent. isToppled and isSettled each imply hasBeenToppled. The timer is non-negative, and 0 before the first topple. |
| Boxes.ToppleIsFirstCrossing | Assets/Source/Box.cs:111-118 | In a consistent state, OnToppled runs exactly when the deflection exceeds the threshold and the box has never toppled. |
| Boxes.Run | Assets/Source/Box.cs:91-99 | Update applied frame after frame: hasBeenToppled and isSettled, once true, stay true. There are no more topples or fades than frames. |
| Boxes.RunTopplesAtMostOnce | Assets/Source/Box.cs:115-130 | Over any frame sequence there is at most one topple, and none if hasBeenToppled was already true. hasBeenToppled never returns to false. The points awarded are 0 or PointValue. If a score manager is present on every frame they are PointValue exactly when the box toppled. |
| Boxes.RunSettlesAtMostOnce | Assets/Source/Box.cs:93-152 | Over any frame sequence the fade starts at most once, only for a toppled box. isSettled never returns to false. |
| Boxes.RunSettleTimer | Assets/Source/Box.cs:141-158 | For a toppled, unsettled box the timer equals the length of the current run of still frames. The box settles on a still frame where that run reaches settleTime. |
| Boxes.ToppleScenario | Assets/Source/Box.cs:111-130 | A box tipped from 0 through 10 and 20 to 35 degrees, threshold 30: one topple and one award of 100. |
| Boxes.FadeAlpha | Assets/Source/Box.cs:190 | The fade opacity lies in [0, 1]. It is 0 once the elapsed time reaches the duration and 1 at the start. |
| Boxes.FadeAlphaNonIncreasing | Assets/Source/Box.cs:187-190 | The opacity never increases as elapsed time grows. |
| Boxes.ElapsedMonotone | Assets/Source/Box.cs:189 | With non-negative frame times the accumulated time never decreases. |
| Boxes.ImpactVolume | Assets/Source/Box.cs:170 | The volume clamp01(speed / 10) lies in [0, 1], and above 0.2 for a speed over 2. |
| Boxes.Box.constructor | Assets/Source/Box.cs:45-48 | A new box is upright, has never toppled, is not settled, and its timer is 0. |
| Boxes.Box.IsToppled | Assets/Source/Box.cs:218 | The IsToppled property reports the current reading, and true implies HasBeenToppled. |
| Boxes.Box.Update | Assets/Source/Box.cs:91-99 | The new fields are exactly Step of the old ones. On the topple frame a present score manager rises by PointValue and shows the new "D7" text. On any other frame it is untouched. The consistency invariant is kept. |
| Boxes.Box.CheckIfToppled | Assets/Source/Box.cs:101-119 | Recomputes isToppled from the deflection. On a first rising edge it calls OnToppled, which awards the points. |
| Boxes.Box.HasBeenToppled | Assets/Source/Box.cs:219 | While the property is false the box is in its initial state: not toppled, not settled, timer 0. |
| Boxes.Box.PointValue | Assets/Source/Box.cs:220 | Returns the configured point value. |
| Boxes.Box.OnToppled | Assets/Source/Box.cs:121-133 | Sets hasBeenToppled. If a score manager exists, adds PointValue to it. |
| Boxes.Box.CheckIfSettled | Assets/Source/Box.cs:135-159 | A still frame accumulates dt and settles at settleTime. A moving frame resets the timer. |
| Boxes.Box.OnCollisionEnter2D | Assets/Source/Box.cs:161-174 | A sound plays iff a clip and a source exist, the impact speed is > 2 and the source is idle. The volume is clamp01(speed / 10), in (0.2, 1]. |
| Boxes.Box.FadeOutAndDestroy | Assets/Source/Box.cs:176-205 | Elapsed time accumulates until it reaches fadeOutDuration, then the box is destroyed. Destroy is reached exactly then, renderer or not. Each frame writes opacity Lerp(1, 0, elapsed / duration), only when a renderer exists. The written opacities never increase and end at 0. |
| Boxes.Box.SetToppleThreshold | Assets/Source/Box.cs:229-232 | Stores the new threshold. |
| Cannons.RotationInput | Assets/Source/Cannon.cs:92-103 | The input is 1 iff up is held, -1 iff only down is held, and 0 iff neither is held. Up wins when both are held. |
| Cannons.Rotate | Assets/Source/Cannon.cs:105-111 | An input inside the deadzone leaves the angle unchanged. Otherwise the result lies in [min, max] when min <= max, and is exactly rotation + input x speed x dt when that lies in range. |
| Cannons.RotateAll | Assets/Source/Cannon.cs:105-111 | HandleRotation applied frame after frame keeps an angle that starts in [min, max] inside it. |
| Cannons.RotateStep | Assets/Source/Cannon.cs:105-115 | With no key the angle is unchanged. With a key and min <= max it lands in [min, max]. |
| Cannons.RotationStaysClamped | Assets/Source/Cannon.cs:105-111 | After any frame sequence, for any dt, the angle is in [min, max] if it started there or if a key was held on some frame. |
| Cannons.IdleKeepsRotation | Assets/Source/Cannon.cs:105-115 | Frames with no key held leave the angle unchanged. |
| Cannons.HoldUpScenario | Assets/Source/Cannon.cs:105-111 | Holding up for 2 s at 50 degrees/s from 0 stops at the 45-degree limit, not 100. |
| Cannons.CooldownElapsed | Assets/Source/Cannon.cs:130 | The gate is open iff now >= lastShootTime + shootCooldown. |
| Cannons.AcceptedShots | Assets/Source/Cannon.cs:127-135 | The accepted shots are a subsequence of the requests, in order, and no more numerous. |
| Cannons.AcceptedShotsSpaced | Assets/Source/Cannon.cs:127-135 | Each accepted shot comes at least shootCooldown after the previous accepted shot; the first comes at least shootCooldown after the initial timestamp. |
| Cannons.NoShotAccepted | Assets/Source/Cannon.cs:127-135 | No shot is accepted iff every request falls inside the cooldown of the initial timestamp. |
| Cannons.FirstShotAccepted | Assets/Source/Cannon.cs:127-135 | The first request at least shootCooldown after the timestamp is accepted, and the gate restarts from its time. |
| Cannons.FireScenario | Assets/Source/Cannon.cs:127-135 | From timestamp 0 with cooldown 0.25, requests at 0, 0.1 and 0.3 give one shot, at 0.3. |
| Cannons.Cannon.constructor | Assets/Source/Cannon.cs:28-29 | The angle and the last shot time start at 0, and nothing has been spawned. |
| Cannons.Cannon.HandleRotation | Assets/Source/Cannon.cs:90-116 | With a key held, the angle advances by input x speed x dt, is clamped, and is applied to the barrel. With no key, the angle and the barrel are unchanged. |
| Cannons.Cannon.UpdateCannonRotation | Assets/Source/Cannon.cs:118-125 | The barrel shows the current angle. |
| Cannons.Cannon.OnShoot | Assets/Source/Cannon.cs:127-135 | Inside the cooldown nothing is spawned and the timestamp is unchanged. Otherwise Shoot runs and the timestamp becomes now, even when Shoot spawned nothing. |
| Cannons.Cannon.Shoot | Assets/Source/Cannon.cs:137-173 | Spawns iff both a prefab and a shoot point exist. The impulse is shootForce along the current angle, applied only when the prefab has a Projectile script. |
| Cannons.Cannon.SetRotation | Assets/Source/Cannon.cs:176-180 | Stores clamp(angle, min, max) and applies it to the barrel. An angle already in range is stored as is. |
| Cannons.Cannon.GetRotation | Assets/Source/Cannon.cs:183-186 | Returns exactly the stored angle. |
| Projectiles.AudioLength | Assets/Source/Projectile.cs:41-45 | The delay is the clip length when both the clip and the audio source exist, else 0. |
| Projectiles.Reaction | Assets/Source/Projectile.cs:38-71 | The sound plays iff the clip and source exist and the source is idle. The impact effect is spawned iff configured, whatever was hit. Destruction, with the audio-length delay, is scheduled iff destroyOnCollision is set and the other object is on the Box layer. No impulse is applied. Each call is made at most once: the effect count is the number of conditions that hold. |
| Projectiles.Reactions | Assets/Source/Projectile.cs:38-71 | A sequence of collisions yields at most three engine calls per collision and never an impulse. |
| Projectiles.ReactionSchedulesDestroy | Assets/Source/Projectile.cs:61-69 | One collision schedules destruction iff the flag is set and it hit the Box layer. |
| Projectiles.DestroyOnlyAfterBoxHit | Assets/Source/Projectile.cs:61-69 | Over any collision sequence, destruction is scheduled iff the flag is set and some collision hit the Box layer. |
| Projectiles.DestroyWaitsForAudio | Assets/Source/Projectile.cs:41-69 | Every collision-triggered destruction waits exactly the audio length. |
| Projectiles.To2D | Assets/Source/Projectile.cs:77 | The 2D force keeps x and y of the 3D force. |
| Projectiles.Projectile.Awake | Assets/Source/Projectile.cs:26-36 | Destruction after the lifetime is scheduled unconditionally, as the first effect. |
| Projectiles.Projectile.OnCollisionEnter2D | Assets/Source/Projectile.cs:38-71 | Appends exactly the Reaction effects. The lifetime destruction stays first. |
| Projectiles.Projectile.AddLaunchForce | Assets/Source/Projectile.cs:74-80 | Appends one impulse carrying x and y of the force, with z dropped. |

## Left out

- Physics setup and forces (`SetupPhysics`, mass, drag and material settings, `_rb.Sleep()`, `ApplyForce`, `SetMass`, the projectile's gravity and collision-mode setup). They are engine configuration with no logic of their own.
- The editor gizmo (`OnDrawGizmosSelected`), which is only visual.
- Input System wiring: creating, enabling and subscribing the actions. Held keys and the fire time are method parameters.
- `Cannon.Start`: defaulting the barrel to the cannon's own transform and creating a shoot point. After Start both exist, so `hasShootPoint` is a configuration flag and the barrel is always present.
- The trigonometry of the shoot direction and the quaternion of the barrel. A launch is recorded as the angle and magnitude of the impulse, `Launch(angle, shootForce)`, meaning shootForce times (cos a, sin a). The barrel rotation is a ghost angle.
- Audio playback, sprite colour, the score label's rendering, `Instantiate` and `Destroy`. They appear as recorded effects, returned values or fields. Only the alpha channel of the fade colour is modelled.
- Coroutine and frame scheduling across objects. The fade runs over a sequence of frame times supplied by the caller. When the frames run out before the duration is reached, it reports that the box was not yet destroyed.
- IEEE float rounding: times, angles and speeds are exact reals.
- Score.ScoreManager.AddScore: requires the new total to fit a 32-bit int. C#'s unchecked wrap-around on overflow is not modelled.
- Boxes.Box.Update: requires the same no-overflow bound, for a present score manager, on a box that has not yet toppled and so may still award points.
- An unwired `_rigidBody` on a projectile. The field is serialized and never fetched, and `Awake` dereferences it before scheduling the lifetime destruction. Without it, `Awake` throws and no destruction is scheduled, and `AddLaunchForce` throws as well. The model assumes the field is wired, so `Projectiles.Projectile.Awake` always schedules the lifetime destruction.
- A missing score label: `AddScore` with no text component would throw after adding the points. The model assumes the label exists.
- `ScoreManager.Instance` is tested with Unity's object truthiness, which is also false for a destroyed manager. The model treats it as a null test.
- `Debug.Log`, `LogWarning` and `LogError` messages.
