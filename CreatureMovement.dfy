/** The creature enemy, `CreatureAI` (Assets/Scripts/CreatureMovement.cs):
    walks towards a sensed player and strikes when close, casts a spell
    behind a cooldown while out of striking range, idles otherwise, and has a
    health pool with a dead guard. */
module CreatureMovement {
  import opened GameCommon

  /** The animator calls the script makes, in order: `Play("Idle")`,
      `Play("Walk")` and the ten triggers. */
  datatype Cue =
    | PlayIdle | PlayWalk
    | AttackCue | AttackNoEffectCue | SpellCue | SpellNoEffectCue
    | HurtCue | HurtNoEffectCue | DeathCue | DeathNoEffectCue

  // ---------------------------------------------------------------------------
  // Health
  // ---------------------------------------------------------------------------

  /** Health and the dead flag. */
  datatype Vitals = Vitals(health: int, dead: bool)

  /** `TakeDamage`: ignored once dead; otherwise the damage is subtracted and
      the creature dies when its health is no longer positive. */
  function Damage(v: Vitals, damage: int): Vitals
  {
    if v.dead then v
    else Vitals(v.health - damage, v.health - damage <= 0)
  }

  function RunDamage(v: Vitals, ds: seq<int>): Vitals
    decreases |ds|
  {
    if ds == [] then v else RunDamage(Damage(v, ds[0]), ds[1..])
  }

  /** Nothing resets the dead flag: once dead, further damage changes
      nothing. */
  lemma {:induction false} DeadIsFrozen(v: Vitals, ds: seq<int>)
    requires v.dead
    ensures RunDamage(v, ds) == v
    decreases |ds|
  {
    if ds != [] {
      DeadIsFrozen(v, ds[1..]);
    }
  }

  /** With non-negative damage, a live creature with health `h` has died
      after a run of hits exactly when there was at least one hit and their
      total has reached `h`; while it lives its health is `h` minus the
      total. */
  lemma {:induction false} DiesIffDepleted(h: int, ds: seq<int>)
    requires AllNonNegativeInt(ds)
    ensures RunDamage(Vitals(h, false), ds).dead <==> (ds != [] && SumInt(ds) >= h)
    ensures !RunDamage(Vitals(h, false), ds).dead ==> RunDamage(Vitals(h, false), ds).health == h - SumInt(ds)
    decreases |ds|
  {
    if ds != [] {
      var rest := ds[1..];
      assert AllNonNegativeInt(rest) by {
        forall i | 0 <= i < |rest| ensures rest[i] >= 0 { assert rest[i] == ds[i + 1]; }
      }
      SumIntNonNegative(rest);
      if h - ds[0] <= 0 {
        DeadIsFrozen(Vitals(h - ds[0], true), rest);
      } else {
        DiesIffDepleted(h - ds[0], rest);
      }
    }
  }

  // ---------------------------------------------------------------------------
  // Spells
  // ---------------------------------------------------------------------------

  /** What one `Update` of a live creature needs for the spell rule: the
      frame time and whether the player is sensed but out of striking range. */
  datatype SpellInput = SpellInput(dt: real, chasing: bool)

  /** The timer runs down, and a chasing creature whose timer has run out
      casts and restarts it at `cooldown`. Returns the new timer and whether
      a spell was cast. */
  function SpellStep(t: real, f: SpellInput, cooldown: real): (r: (real, bool))
    ensures r.1 <==> f.chasing && CooldownStep(t, f.dt) <= 0.0
    ensures r.0 == (if r.1 then cooldown else CooldownStep(t, f.dt))
  {
    var t1 := CooldownStep(t, f.dt);
    if f.chasing && t1 <= 0.0 then (cooldown, true) else (t1, false)
  }

  /** Some frame of the run casts a spell. */
  predicate CastsDuring(t: real, fs: seq<SpellInput>, cooldown: real)
    decreases |fs|
  {
    fs != [] && (SpellStep(t, fs[0], cooldown).1 || CastsDuring(SpellStep(t, fs[0], cooldown).0, fs[1..], cooldown))
  }

  function FrameTimes(fs: seq<SpellInput>): (dts: seq<real>)
    ensures |dts| == |fs|
    ensures forall i :: 0 <= i < |fs| ==> dts[i] == fs[i].dt
  {
    seq(|fs|, i requires 0 <= i < |fs| => fs[i].dt)
  }

  /** Spells are spaced by the cooldown: with `t` seconds left on the timer
      (after a cast, `t` is `spellCooldown`), no spell is cast while less
      than `t` seconds pass, whatever the creature does in between. */
  lemma {:induction false} NoSpellBeforeCooldown(t: real, fs: seq<SpellInput>, cooldown: real)
    requires t > 0.0
    requires AllNonNegative(FrameTimes(fs))
    requires SumReal(FrameTimes(fs)) < t
    ensures !CastsDuring(t, fs, cooldown)
    decreases |fs|
  {
    if fs != [] {
      var dts := FrameTimes(fs);
      var rest := FrameTimes(fs[1..]);
      assert dts[1..] == rest;
      assert AllNonNegative(rest) by {
        forall i | 0 <= i < |rest| ensures rest[i] >= 0.0 { assert rest[i] == dts[i + 1]; }
      }
      SumRealNonNegative(rest);
      NoSpellBeforeCooldown(t - fs[0].dt, fs[1..], cooldown);
    }
  }

  /** An uninterrupted chase casts on the first frame on which the timer
      has run out: with the timer empty, the next chasing frame casts. */
  lemma ChaseCastsWhenReady(t: real, f: SpellInput, cooldown: real)
    requires t <= 0.0 && f.chasing
    ensures CastsDuring(t, [f], cooldown)
    ensures SpellStep(t, f, cooldown) == (cooldown, true)
  {
  }

  // ---------------------------------------------------------------------------
  // The controller
  // ---------------------------------------------------------------------------

  class CreatureAI {
    const maxHealth: int
    const moveSpeed: real
    const senseRange: real
    const attackRange: real
    const spellCooldown: real
    /** `transform.localScale.x` at the start (facing right). */
    const baseScaleX: real

    var currentHealth: int
    var isDead: bool
    var isFacingRight: bool
    var scaleX: real
    var spellTimer: real
    /** `rb.linearVelocity`. */
    var vx: real
    var vy: real
    /** The animator calls made so far. */
    var cues: seq<Cue>

    ghost predicate Valid()
      reads this`isFacingRight, this`scaleX
    {
      scaleX == (if isFacingRight then baseScaleX else -baseScaleX)
    }

    function Health(): Vitals
      reads this`currentHealth, this`isDead
    {
      Vitals(currentHealth, isDead)
    }

    /** The field initialisers and `Start`: full health. */
    constructor (maxHealth: int, moveSpeed: real, senseRange: real, attackRange: real,
                 spellCooldown: real, baseScaleX: real)
      ensures Valid()
      ensures this.maxHealth == maxHealth && this.moveSpeed == moveSpeed
      ensures this.senseRange == senseRange && this.attackRange == attackRange
      ensures this.spellCooldown == spellCooldown && this.baseScaleX == baseScaleX
      ensures currentHealth == maxHealth && !isDead && isFacingRight && spellTimer == 0.0
      ensures cues == []
    {
      this.maxHealth := maxHealth;
      this.moveSpeed := moveSpeed;
      this.senseRange := senseRange;
      this.attackRange := attackRange;
      this.spellCooldown := spellCooldown;
      this.baseScaleX := baseScaleX;
      currentHealth := maxHealth;
      isDead := false;
      isFacingRight := true;
      scaleX := baseScaleX;
      spellTimer := 0.0;
      vx, vy := 0.0, 0.0;
      cues := [];
    }

    /** One frame, `d` being the distance to the player and `dirX` the x part
        of the unit vector towards it. A dead creature does nothing. A live
        one runs its spell timer down; within sense range it walks towards
        the player and then either strikes (within attack range, ending at
        rest) or, failing that, casts a spell if the timer has run out; out
        of sense range it idles at rest. */
    method Update(d: real, dirX: real, dt: real)
      requires Valid()
      modifies this
      ensures Valid()
      ensures currentHealth == old(currentHealth) && isDead == old(isDead)
      ensures old(isDead) ==> spellTimer == old(spellTimer) && vx == old(vx) && vy == old(vy)
                              && cues == old(cues) && isFacingRight == old(isFacingRight)
      ensures !old(isDead) ==>
                var band := SelectBand(d, senseRange, attackRange);
                var (t, cast) := SpellStep(old(spellTimer), SpellInput(dt, band == ChaseBand), spellCooldown);
                && spellTimer == t
                && (band == OutOfSense ==> vx == 0.0 && vy == 0.0 && cues == old(cues) + [PlayIdle]
                                           && isFacingRight == old(isFacingRight))
                && (band == AttackBand ==> vx == 0.0 && vy == 0.0 && cues == old(cues) + [PlayWalk, AttackCue]
                                           && isFacingRight == FaceTravel(old(isFacingRight), dirX))
                && (band == ChaseBand ==> vx == dirX * moveSpeed && vy == old(vy)
                                          && cues == old(cues) + [PlayWalk] + (if cast then [SpellCue] else [])
                                          && isFacingRight == FaceTravel(old(isFacingRight), dirX))
    {
      if isDead {
        return;
      }
      if spellTimer > 0.0 {
        spellTimer := spellTimer - dt;
      }
      if d <= senseRange {
        MoveTowardPlayer(dirX);
        if d <= attackRange {
          Attack();
        } else if spellTimer <= 0.0 {
          Spell();
          spellTimer := spellCooldown;
        }
      } else {
        cues := cues + [PlayIdle];
        vx, vy := 0.0, 0.0;
      }
    }

    /** "Walk", horizontal velocity towards the player, face the way it
        goes. */
    method MoveTowardPlayer(dirX: real)
      requires Valid()
      modifies this`cues, this`vx, this`isFacingRight, this`scaleX
      ensures Valid()
      ensures cues == old(cues) + [PlayWalk]
      ensures vx == dirX * moveSpeed
      ensures isFacingRight == FaceTravel(old(isFacingRight), dirX)
    {
      cues := cues + [PlayWalk];
      vx := dirX * moveSpeed;
      if dirX > 0.0 && !isFacingRight {
        Flip();
      } else if dirX < 0.0 && isFacingRight {
        Flip();
      }
    }

    /** Stop and strike. */
    method Attack()
      modifies this`vx, this`vy, this`cues
      ensures vx == 0.0 && vy == 0.0 && cues == old(cues) + [AttackCue]
    {
      vx, vy := 0.0, 0.0;
      cues := cues + [AttackCue];
    }

    /** Public and unguarded: the trigger is set even when dead. */
    method AttackNoEffect()
      modifies this`cues
      ensures cues == old(cues) + [AttackNoEffectCue]
    {
      cues := cues + [AttackNoEffectCue];
    }

    method Spell()
      modifies this`cues
      ensures cues == old(cues) + [SpellCue]
    {
      cues := cues + [SpellCue];
    }

    /** Public and unguarded, like `AttackNoEffect`. */
    method SpellNoEffect()
      modifies this`cues
      ensures cues == old(cues) + [SpellNoEffectCue]
    {
      cues := cues + [SpellNoEffectCue];
    }

    /** A no-op when dead. Otherwise the damage is subtracted; a creature
        still above zero shows "Hurt", one at zero or below dies. */
    method TakeDamage(damage: int)
      modifies this`currentHealth, this`isDead, this`vx, this`vy, this`cues
      ensures Health() == Damage(old(Health()), damage)
      ensures old(isDead) ==> cues == old(cues) && vx == old(vx) && vy == old(vy)
      ensures !old(isDead) && currentHealth > 0 ==> cues == old(cues) + [HurtCue] && vx == old(vx) && vy == old(vy)
      ensures !old(isDead) && currentHealth <= 0 ==> cues == old(cues) + [DeathCue] && vx == 0.0 && vy == 0.0
    {
      if isDead {
        return;
      }
      currentHealth := currentHealth - damage;
      if currentHealth > 0 {
        cues := cues + [HurtCue];
      } else {
        Die();
      }
    }

    /** "Hurt-NoEffect", only while alive. */
    method TakeDamageNoEffect()
      modifies this`cues
      ensures cues == old(cues) + (if isDead then [] else [HurtNoEffectCue])
    {
      if !isDead {
        cues := cues + [HurtNoEffectCue];
      }
    }

    method Die()
      modifies this`isDead, this`vx, this`vy, this`cues
      ensures isDead && vx == 0.0 && vy == 0.0 && cues == old(cues) + [DeathCue]
    {
      isDead := true;
      vx, vy := 0.0, 0.0;
      cues := cues + [DeathCue];
    }

    /** Public and unguarded: kills whatever the health, and may be called
        again on a dead creature. */
    method DieNoEffect()
      modifies this`isDead, this`vx, this`vy, this`cues
      ensures isDead && vx == 0.0 && vy == 0.0 && cues == old(cues) + [DeathNoEffectCue]
      ensures currentHealth == old(currentHealth)
    {
      isDead := true;
      vx, vy := 0.0, 0.0;
      cues := cues + [DeathNoEffectCue];
    }

    method Flip()
      requires Valid()
      modifies this`isFacingRight, this`scaleX
      ensures Valid()
      ensures isFacingRight == !old(isFacingRight) && scaleX == -old(scaleX)
    {
      isFacingRight := !isFacingRight;
      scaleX := -scaleX;
    }
  }
}
