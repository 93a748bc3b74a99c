/**
 * The projectile (Projectile.cs): destruction scheduled at creation, and a
 * reaction to each collision. The engine calls it makes (PlayOneShot,
 * Instantiate, Destroy, AddForce) are recorded as a log of effects.
 */
module Projectiles {

  datatype Vec3 = Vec3(x: real, y: real, z: real)
  datatype Vec2 = Vec2(x: real, y: real)

  datatype Effect =
    | DestroyAfter(delay: real)   // Destroy(gameObject, delay)
    | PlayImpactSound             // AudioSource.PlayOneShot(impact clip)
    | SpawnImpactEffect           // Instantiate(impact effect prefab)
    | AddImpulse(force: Vec2)     // Rigidbody2D.AddForce(force, Impulse)

  /** The serialized settings and attached components. */
  datatype Settings = Settings(lifetime: real, destroyOnCollision: bool, hasImpactEffect: bool,
                               hasImpactSound: bool, hasAudioSource: bool, impactClipLength: real)

  /**
   * What the engine reports with one collision: the other object's layer, the
   * index of the layer named "Box" (-1 when no such layer exists), and whether
   * the audio source is already playing.
   */
  datatype Collision = Collision(otherLayer: int, boxLayer: int, audioPlaying: bool)

  /** The delay before destruction: the clip length when a clip and an audio source exist. */
  function AudioLength(s: Settings): (delay: real)
    ensures s.hasImpactSound && s.hasAudioSource ==> delay == s.impactClipLength
    ensures !(s.hasImpactSound && s.hasAudioSource) ==> delay == 0.0
  {
    if s.hasImpactSound && s.hasAudioSource then s.impactClipLength else 0.0
  }

  /** The engine calls OnCollisionEnter2D makes for one collision, in order. */
  function Reaction(s: Settings, c: Collision): (effects: seq<Effect>)
    ensures PlayImpactSound in effects <==> s.hasImpactSound && s.hasAudioSource && !c.audioPlaying
    ensures SpawnImpactEffect in effects <==> s.hasImpactEffect
    ensures DestroyAfter(AudioLength(s)) in effects <==> s.destroyOnCollision && c.otherLayer == c.boxLayer
    ensures forall e :: e in effects && e.DestroyAfter? ==> e == DestroyAfter(AudioLength(s))
    ensures forall e :: e in effects ==> !e.AddImpulse?
    // each engine call is made at most once per collision
    ensures |effects| == (if s.hasImpactSound && s.hasAudioSource && !c.audioPlaying then 1 else 0) +
                         (if s.hasImpactEffect then 1 else 0) +
                         (if s.destroyOnCollision && IsBoxHit(c) then 1 else 0)
  {
    var sound := if s.hasImpactSound && s.hasAudioSource && !c.audioPlaying then [PlayImpactSound] else [];
    var spawn := if s.hasImpactEffect then [SpawnImpactEffect] else [];
    var destroy := if s.destroyOnCollision && c.otherLayer == c.boxLayer then [DestroyAfter(AudioLength(s))] else [];
    sound + spawn + destroy
  }

  /** The effects of a sequence of collisions, one after the other. */
  function Reactions(s: Settings, cs: seq<Collision>): (effects: seq<Effect>)
    ensures |effects| <= 3 * |cs|
    ensures forall e :: e in effects ==> !e.AddImpulse?
    decreases |cs|
  {
    if cs == [] then [] else Reactions(s, cs[..|cs| - 1]) + Reaction(s, cs[|cs| - 1])
  }

  predicate IsBoxHit(c: Collision)
  {
    c.otherLayer == c.boxLayer
  }

  predicate AnyBoxHit(cs: seq<Collision>)
  {
    exists j :: 0 <= j < |cs| && IsBoxHit(cs[j])
  }

  predicate SchedulesDestroy(effects: seq<Effect>)
  {
    exists i :: 0 <= i < |effects| && effects[i].DestroyAfter?
  }

  lemma ReactionSchedulesDestroy(s: Settings, c: Collision)
    ensures SchedulesDestroy(Reaction(s, c)) <==> s.destroyOnCollision && IsBoxHit(c)
  {
    var r := Reaction(s, c);
    if SchedulesDestroy(r) {
      var i :| 0 <= i < |r| && r[i].DestroyAfter?;
      assert r[i] in r;
    }
    if s.destroyOnCollision && IsBoxHit(c) {
      assert r[|r| - 1].DestroyAfter?;
    }
  }

  lemma SchedulesDestroyConcat(a: seq<Effect>, b: seq<Effect>)
    ensures SchedulesDestroy(a + b) <==> SchedulesDestroy(a) || SchedulesDestroy(b)
  {
    if SchedulesDestroy(a + b) {
      var i :| 0 <= i < |a + b| && (a + b)[i].DestroyAfter?;
      if i < |a| { assert a[i] == (a + b)[i]; } else { assert b[i - |a|] == (a + b)[i]; }
    }
    if SchedulesDestroy(a) {
      var i :| 0 <= i < |a| && a[i].DestroyAfter?;
      assert (a + b)[i] == a[i];
    }
    if SchedulesDestroy(b) {
      var i :| 0 <= i < |b| && b[i].DestroyAfter?;
      assert (a + b)[|a| + i] == b[i];
    }
  }

  lemma AnyBoxHitSnoc(cs: seq<Collision>)
    requires cs != []
    ensures AnyBoxHit(cs) <==> AnyBoxHit(cs[..|cs| - 1]) || IsBoxHit(cs[|cs| - 1])
  {
    var init := cs[..|cs| - 1];
    if AnyBoxHit(init) {
      var j :| 0 <= j < |init| && IsBoxHit(init[j]);
      assert cs[j] == init[j];
    }
    if AnyBoxHit(cs) {
      var j :| 0 <= j < |cs| && IsBoxHit(cs[j]);
      if j < |init| { assert init[j] == cs[j]; }
    }
  }

  /**
   * Over any sequence of collisions, a collision-triggered destruction is
   * scheduled exactly when destroyOnCollision is set and some collision was
   * with the Box layer.
   */
  lemma {:induction false} DestroyOnlyAfterBoxHit(s: Settings, cs: seq<Collision>)
    ensures SchedulesDestroy(Reactions(s, cs)) <==> s.destroyOnCollision && AnyBoxHit(cs)
    decreases |cs|
  {
    if cs != [] {
      var init, last := cs[..|cs| - 1], cs[|cs| - 1];
      DestroyOnlyAfterBoxHit(s, init);
      ReactionSchedulesDestroy(s, last);
      SchedulesDestroyConcat(Reactions(s, init), Reaction(s, last));
      AnyBoxHitSnoc(cs);
    }
  }

  /** Every collision-triggered destruction waits exactly the audio length. */
  lemma {:induction false} DestroyWaitsForAudio(s: Settings, cs: seq<Collision>)
    ensures forall e :: e in Reactions(s, cs) && e.DestroyAfter? ==> e == DestroyAfter(AudioLength(s))
    decreases |cs|
  {
    if cs != [] {
      var init := cs[..|cs| - 1];
      DestroyWaitsForAudio(s, init);
      var before, now := Reactions(s, init), Reaction(s, cs[|cs| - 1]);
      assert Reactions(s, cs) == before + now;
      forall e: Effect | e in before + now && e.DestroyAfter? ensures e == DestroyAfter(AudioLength(s)) {
        assert e in before || e in now;
      }
    }
  }

  /** AddLaunchForce hands the body the x and y of the force and drops z. */
  function To2D(force: Vec3): (f: Vec2)
    ensures f.x == force.x && f.y == force.y
  {
    Vec2(force.x, force.y)
  }

  class Projectile {
    const settings: Settings
    /** Engine calls made so far, oldest first. */
    var effects: seq<Effect>

    /** Destruction after the lifetime is always the first thing scheduled. */
    ghost predicate Valid()
      reads this
    {
      |effects| >= 1 && effects[0] == DestroyAfter(settings.lifetime)
    }

    /** Awake: schedule Destroy(gameObject, lifetime) unconditionally. */
    constructor Awake(settings: Settings)
      ensures Valid() && this.settings == settings
      ensures effects == [DestroyAfter(settings.lifetime)]
    {
      this.settings := settings;
      effects := [DestroyAfter(settings.lifetime)];
    }

    method OnCollisionEnter2D(c: Collision)
      requires Valid()
      modifies this`effects
      ensures Valid()
      ensures effects == old(effects) + Reaction(settings, c)
    {
      var audioLength := 0.0;
      if settings.hasImpactSound && settings.hasAudioSource {
        audioLength := settings.impactClipLength;
        if !c.audioPlaying {
          effects := effects + [PlayImpactSound];
        }
      }
      if settings.hasImpactEffect {
        effects := effects + [SpawnImpactEffect];
      }
      if settings.destroyOnCollision {
        var isBoxLayer := c.otherLayer == c.boxLayer;
        if !isBoxLayer {
          return;
        }
        effects := effects + [DestroyAfter(audioLength)];
      }
    }

    method AddLaunchForce(force: Vec3)
      requires Valid()
      modifies this`effects
      ensures Valid()
      ensures effects == old(effects) + [AddImpulse(To2D(force))]
    {
      var force2D := Vec2(force.x, force.y);
      effects := effects + [AddImpulse(force2D)];
    }
  }
}
