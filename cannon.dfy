/**
 * The cannon (Cannon.cs): a barrel angle moved by two held keys and clamped to
 * [minAngle, maxAngle], and a fire action gated by a cooldown measured against
 * the time of the last accepted shot.
 */
module Cannons {
  import opened Mathf
  import opened Wrappers

  /** Input magnitudes at or below this are ignored. */
  const Deadzone: real := 0.1

  /** Rotate-up wins when both keys are held. */
  function RotationInput(upPressed: bool, downPressed: bool): (input: real)
    ensures input == 1.0 <==> upPressed
    ensures input == -1.0 <==> !upPressed && downPressed
    ensures input == 0.0 <==> !upPressed && !downPressed
  {
    if upPressed then 1.0 else if downPressed then -1.0 else 0.0
  }

  /** HandleRotation's update of the angle. */
  function Rotate(rotation: real, input: real, speed: real, dt: real, minAngle: real, maxAngle: real): (r: real)
    ensures Abs(input) <= Deadzone ==> r == rotation
    ensures Abs(input) > Deadzone && minAngle <= maxAngle ==> minAngle <= r <= maxAngle
    ensures Abs(input) > Deadzone && minAngle <= rotation + input * speed * dt <= maxAngle ==>
      r == rotation + input * speed * dt
  {
    if Abs(input) > Deadzone then Clamp(rotation + input * speed * dt, minAngle, maxAngle) else rotation
  }

  /** The keys held during one frame and Time.deltaTime. */
  datatype KeyFrame = KeyFrame(upPressed: bool, downPressed: bool, dt: real)

  predicate AnyKey(k: KeyFrame)
  {
    k.upPressed || k.downPressed
  }

  /** The angle after HandleRotation has run on each frame in turn. */
  function RotateAll(rotation: real, speed: real, minAngle: real, maxAngle: real, frames: seq<KeyFrame>): (r: real)
    ensures minAngle <= maxAngle && minAngle <= rotation <= maxAngle ==> minAngle <= r <= maxAngle
    decreases |frames|
  {
    if frames == [] then rotation
    else
      var k := frames[|frames| - 1];
      Rotate(RotateAll(rotation, speed, minAngle, maxAngle, frames[..|frames| - 1]),
             RotationInput(k.upPressed, k.downPressed), speed, k.dt, minAngle, maxAngle)
  }

  /** One frame: no key leaves the angle alone; a key leaves it inside the limits. */
  lemma RotateStep(rotation: real, k: KeyFrame, speed: real, minAngle: real, maxAngle: real)
    ensures var r := Rotate(rotation, RotationInput(k.upPressed, k.downPressed), speed, k.dt, minAngle, maxAngle);
      (!AnyKey(k) ==> r == rotation) &&
      (AnyKey(k) && minAngle <= maxAngle ==> minAngle <= r <= maxAngle)
  {
  }

  /**
   * After any sequence of frames the angle is inside [minAngle, maxAngle] if it
   * started there or if a key was held on some frame; with no key ever held it
   * is the starting angle.
   */
  lemma {:induction false} RotationStaysClamped(rotation: real, speed: real, minAngle: real, maxAngle: real,
                                                frames: seq<KeyFrame>)
    requires minAngle <= maxAngle
    requires (minAngle <= rotation <= maxAngle) || exists i :: 0 <= i < |frames| && AnyKey(frames[i])
    ensures minAngle <= RotateAll(rotation, speed, minAngle, maxAngle, frames) <= maxAngle
    decreases |frames|
  {
    if frames != [] {
      var last := |frames| - 1;
      var k := frames[last];
      var init := frames[..last];
      RotateStep(RotateAll(rotation, speed, minAngle, maxAngle, init), k, speed, minAngle, maxAngle);
      if !AnyKey(k) {
        if !(minAngle <= rotation <= maxAngle) {
          var i :| 0 <= i < |frames| && AnyKey(frames[i]);
          assert init[i] == frames[i];
        }
        RotationStaysClamped(rotation, speed, minAngle, maxAngle, init);
      }
    }
  }

  lemma {:induction false} IdleKeepsRotation(rotation: real, speed: real, minAngle: real, maxAngle: real,
                                             frames: seq<KeyFrame>)
    requires forall i :: 0 <= i < |frames| ==> !AnyKey(frames[i])
    ensures RotateAll(rotation, speed, minAngle, maxAngle, frames) == rotation
    decreases |frames|
  {
    if frames != [] {
      var init := frames[..|frames| - 1];
      assert forall i :: 0 <= i < |init| ==> init[i] == frames[i];
      IdleKeepsRotation(rotation, speed, minAngle, maxAngle, init);
    }
  }

  /** From 0 degrees, rotate-up held for two seconds at 50 degrees/s stops at the 45 degree limit. */
  lemma HoldUpScenario()
    ensures RotateAll(0.0, 50.0, -45.0, 45.0, [KeyFrame(true, false, 1.0), KeyFrame(true, false, 1.0)]) == 45.0
  {
    var frames := [KeyFrame(true, false, 1.0), KeyFrame(true, false, 1.0)];
    assert frames[..1][..0] == [];
    assert RotateAll(0.0, 50.0, -45.0, 45.0, frames[..1]) == 45.0;
  }

  /** OnShoot's gate: a shot is dropped while now - lastShootTime < shootCooldown. */
  predicate CooldownElapsed(now: real, lastShootTime: real, shootCooldown: real)
    ensures CooldownElapsed(now, lastShootTime, shootCooldown) <==> now >= lastShootTime + shootCooldown
  {
    !(now - lastShootTime < shootCooldown)
  }

  /** a can be obtained from b by deleting elements: its elements occur in b, in the same order. */
  predicate SubsequenceOf(a: seq<real>, b: seq<real>)
    decreases |b|
  {
    a == [] ||
    (b != [] && ((a[0] == b[0] && SubsequenceOf(a[1..], b[1..])) || SubsequenceOf(a, b[1..])))
  }

  /** The times of the fire events OnShoot accepts, out of requests at the given times. */
  function AcceptedShots(lastShootTime: real, shootCooldown: real, times: seq<real>): (acc: seq<real>)
    ensures |acc| <= |times|
    ensures SubsequenceOf(acc, times)
    decreases |times|
  {
    if times == [] then []
    else if CooldownElapsed(times[0], lastShootTime, shootCooldown) then
      [times[0]] + AcceptedShots(times[0], shootCooldown, times[1..])
    else
      AcceptedShots(lastShootTime, shootCooldown, times[1..])
  }

  /**
   * Each accepted shot comes at least shootCooldown after the previous
   * accepted one (the first, after the initial timestamp).
   */
  lemma {:induction false} AcceptedShotsSpaced(lastShootTime: real, shootCooldown: real, times: seq<real>)
    ensures var acc := AcceptedShots(lastShootTime, shootCooldown, times);
      (acc != [] ==> acc[0] - lastShootTime >= shootCooldown) &&
      (forall i :: 0 < i < |acc| ==> acc[i] - acc[i - 1] >= shootCooldown)
    decreases |times|
  {
    if times != [] {
      var rest := times[1..];
      if CooldownElapsed(times[0], lastShootTime, shootCooldown) {
        AcceptedShotsSpaced(times[0], shootCooldown, rest);
        var acc := AcceptedShots(lastShootTime, shootCooldown, times);
        var tail := AcceptedShots(times[0], shootCooldown, rest);
        assert acc == [times[0]] + tail;
        forall i | 0 < i < |acc| ensures acc[i] - acc[i - 1] >= shootCooldown {
          assert acc[i] == tail[i - 1];
          if i > 1 { assert acc[i - 1] == tail[i - 2]; }
        }
      } else {
        AcceptedShotsSpaced(lastShootTime, shootCooldown, rest);
      }
    }
  }

  /** No shot is accepted exactly when every request falls inside the cooldown of the initial timestamp. */
  lemma {:induction false} NoShotAccepted(lastShootTime: real, shootCooldown: real, times: seq<real>)
    ensures AcceptedShots(lastShootTime, shootCooldown, times) == [] <==>
      forall i :: 0 <= i < |times| ==> !CooldownElapsed(times[i], lastShootTime, shootCooldown)
    decreases |times|
  {
    if times != [] && !CooldownElapsed(times[0], lastShootTime, shootCooldown) {
      NoShotAccepted(lastShootTime, shootCooldown, times[1..]);
      assert forall i :: 1 <= i < |times| ==> times[i] == times[1..][i - 1];
    }
  }

  /**
   * The first request at least shootCooldown after the timestamp is accepted,
   * and the gate then restarts from its time.
   */
  lemma {:induction false} FirstShotAccepted(lastShootTime: real, shootCooldown: real, times: seq<real>, k: nat)
    requires k < |times| && CooldownElapsed(times[k], lastShootTime, shootCooldown)
    requires forall i :: 0 <= i < k ==> !CooldownElapsed(times[i], lastShootTime, shootCooldown)
    ensures AcceptedShots(lastShootTime, shootCooldown, times) ==
      [times[k]] + AcceptedShots(times[k], shootCooldown, times[k + 1..])
    decreases k
  {
    if k > 0 {
      var rest := times[1..];
      assert forall i :: 0 <= i < k - 1 ==> rest[i] == times[i + 1];
      FirstShotAccepted(lastShootTime, shootCooldown, rest, k - 1);
      assert rest[k..] == times[k + 1..];
    }
  }

  /**
   * With the timestamp starting at 0 and cooldown 0.25, requests at 0, 0.1 and
   * 0.3 yield one shot, at 0.3: the request at time 0 is inside the cooldown.
   */
  lemma FireScenario()
    ensures AcceptedShots(0.0, 0.25, [0.0, 0.1, 0.3]) == [0.3]
  {
    assert [0.0, 0.1, 0.3][1..] == [0.1, 0.3];
    assert [0.1, 0.3][1..] == [0.3];
  }

  /** An impulse of `magnitude` along the unit vector (cos a, sin a) for the angle a in degrees. */
  datatype Launch = Launch(angleDegrees: real, magnitude: real)

  /** A projectile instantiated at the shoot point; launched when the prefab carries a Projectile script. */
  datatype Spawn = Spawn(launch: Option<Launch>)

  class Cannon {
    const rotationSpeed: real
    const minAngle: real
    const maxAngle: real
    const shootForce: real
    const shootCooldown: real
    const hasProjectilePrefab: bool
    /** Whether the prefab carries a Projectile component. */
    const prefabHasProjectile: bool
    const hasShootPoint: bool

    var currentRotation: real
    var lastShootTime: real
    /** The z rotation last applied to the barrel transform. */
    ghost var barrelAngle: real
    /** Projectiles instantiated so far. */
    var spawned: seq<Spawn>

    /** The cannon after Start: angle and timestamp 0, the barrel set to angle 0. */
    constructor (rotationSpeed: real, minAngle: real, maxAngle: real, shootForce: real, shootCooldown: real,
                 hasProjectilePrefab: bool, prefabHasProjectile: bool, hasShootPoint: bool)
      ensures this.rotationSpeed == rotationSpeed && this.minAngle == minAngle && this.maxAngle == maxAngle
      ensures this.shootForce == shootForce && this.shootCooldown == shootCooldown
      ensures this.hasProjectilePrefab == hasProjectilePrefab && this.prefabHasProjectile == prefabHasProjectile
      ensures this.hasShootPoint == hasShootPoint
      ensures currentRotation == 0.0 && lastShootTime == 0.0 && barrelAngle == 0.0 && spawned == []
    {
      this.rotationSpeed := rotationSpeed;
      this.minAngle := minAngle;
      this.maxAngle := maxAngle;
      this.shootForce := shootForce;
      this.shootCooldown := shootCooldown;
      this.hasProjectilePrefab := hasProjectilePrefab;
      this.prefabHasProjectile := prefabHasProjectile;
      this.hasShootPoint := hasShootPoint;
      currentRotation := 0.0;
      lastShootTime := 0.0;
      barrelAngle := 0.0;
      spawned := [];
    }

    method HandleRotation(upPressed: bool, downPressed: bool, dt: real)
      modifies this`currentRotation, this`barrelAngle
      ensures currentRotation == Rotate(old(currentRotation), RotationInput(upPressed, downPressed),
                                        rotationSpeed, dt, minAngle, maxAngle)
      ensures !upPressed && !downPressed ==> currentRotation == old(currentRotation) && barrelAngle == old(barrelAngle)
      ensures (upPressed || downPressed) ==> barrelAngle == currentRotation
      ensures (upPressed || downPressed) && minAngle <= maxAngle ==> minAngle <= currentRotation <= maxAngle
    {
      var rotationInput := 0.0;
      if upPressed {
        rotationInput := 1.0;
      } else if downPressed {
        rotationInput := -1.0;
      }
      if Abs(rotationInput) > Deadzone {
        currentRotation := currentRotation + rotationInput * rotationSpeed * dt;
        currentRotation := Clamp(currentRotation, minAngle, maxAngle);
        UpdateCannonRotation();
      }
    }

    method UpdateCannonRotation()
      modifies this`barrelAngle
      ensures barrelAngle == currentRotation
    {
      barrelAngle := currentRotation;
    }

    /**
     * The fire event at time `now`: dropped inside the cooldown; otherwise Shoot
     * runs and the timestamp is taken, even when Shoot spawned nothing.
     */
    method OnShoot(now: real)
      modifies this`lastShootTime, this`spawned
      ensures !CooldownElapsed(now, old(lastShootTime), shootCooldown) ==>
        lastShootTime == old(lastShootTime) && spawned == old(spawned)
      ensures CooldownElapsed(now, old(lastShootTime), shootCooldown) ==>
        lastShootTime == now &&
        spawned == old(spawned) + (if hasProjectilePrefab && hasShootPoint then [ShotFired()] else [])
    {
      if now - lastShootTime < shootCooldown {
        return;
      }
      var shot := Shoot();
      if shot.Some? {
        spawned := spawned + [shot.value];
      }
      lastShootTime := now;
    }

    /** What one call of Shoot instantiates at the current angle. */
    function ShotFired(): Spawn
      reads this
    {
      Spawn(if prefabHasProjectile then Some(Launch(currentRotation, shootForce)) else None)
    }

    /**
     * Shoot: nothing without a prefab or a shoot point; otherwise one projectile,
     * pushed with shootForce along the current angle when it has a Projectile
     * script (without one the error is only logged).
     */
    method Shoot() returns (shot: Option<Spawn>)
      ensures shot.Some? <==> hasProjectilePrefab && hasShootPoint
      ensures shot.Some? ==> shot.value.launch.Some? == prefabHasProjectile
      ensures shot.Some? && prefabHasProjectile ==>
        shot.value.launch.value == Launch(currentRotation, shootForce)
    {
      if !hasProjectilePrefab {
        return None;
      }
      if !hasShootPoint {
        return None;
      }
      var launch := None;
      if prefabHasProjectile {
        launch := Some(Launch(currentRotation, shootForce));
      }
      shot := Some(Spawn(launch));
    }

    method SetRotation(angle: real)
      modifies this`currentRotation, this`barrelAngle
      ensures currentRotation == Clamp(angle, minAngle, maxAngle) && barrelAngle == currentRotation
      ensures minAngle <= maxAngle ==> minAngle <= currentRotation <= maxAngle
      ensures minAngle <= angle <= maxAngle ==> currentRotation == angle
    {
      currentRotation := Clamp(angle, minAngle, maxAngle);
      UpdateCannonRotation();
    }

    method GetRotation() returns (angle: real)
      ensures angle == currentRotation
    {
      angle := currentRotation;
    }
  }
}
