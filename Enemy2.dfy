/** The `Enemy2` melee enemy (Assets/Scripts/Enemy2.cs): chases a sensed
    player, idles otherwise, and attacks within range through a coroutine
    that hits the player after a 0.3 s wind-up only if the player is still
    within range, then holds its latch for `attackCooldown`. Its health code
    is commented out, so it has no death state. */
module Enemy2 {
  import opened GameCommon
  import MovementChar

  /** The wind-up before the hit is checked. */
  const WindUpTime: real := 0.3

  class Enemy2 {
    const moveSpeed: real
    const senseRange: real
    const attackRange: real
    const attackCooldown: real
    /** `transform.localScale.x` at the start (facing right). */
    const baseScaleX: real

    var isAttacking: bool
    var isFacingRight: bool
    var scaleX: real
    /** The `Attack` coroutine. */
    var run: AttackRun
    /** `rb.linearVelocity`. */
    var vx: real
    var vy: real
    /** The animator's "Walking" and "Attack" flags. */
    var walking: bool
    var attackFlag: bool
    /** `TakeHit` calls made by the attack run in progress. */
    var hitsThisRun: nat

    ghost predicate Valid()
      reads this`isFacingRight, this`scaleX, this`isAttacking, this`run, this`hitsThisRun
    {
      && scaleX == (if isFacingRight then baseScaleX else -baseScaleX)
      && (isAttacking <==> !run.Ready?)
      && hitsThisRun <= 1
      && (run.WindUp? ==> hitsThisRun == 0)
    }

    constructor (moveSpeed: real, senseRange: real, attackRange: real, attackCooldown: real, baseScaleX: real)
      ensures Valid()
      ensures this.moveSpeed == moveSpeed && this.senseRange == senseRange
      ensures this.attackRange == attackRange && this.attackCooldown == attackCooldown
      ensures this.baseScaleX == baseScaleX
      ensures !isAttacking && isFacingRight && run == Ready
    {
      this.moveSpeed := moveSpeed;
      this.senseRange := senseRange;
      this.attackRange := attackRange;
      this.attackCooldown := attackCooldown;
      this.baseScaleX := baseScaleX;
      isAttacking := false;
      isFacingRight := true;
      scaleX := baseScaleX;
      run := Ready;
      vx, vy := 0.0, 0.0;
      walking, attackFlag := false, false;
      hitsThisRun := 0;
    }

    /** One frame, `d` being the distance to the player and `dirX` the x
        part of the unit vector towards it. There is no dead guard: the
        distance band is acted on in every frame. */
    method Update(d: real, dirX: real)
      requires Valid()
      modifies this`walking, this`vx, this`isFacingRight, this`scaleX, this`attackFlag, this`isAttacking,
               this`run, this`hitsThisRun
      ensures Valid()
      ensures !(SelectBand(d, senseRange, attackRange) == AttackBand && !old(isAttacking)) ==>
                hitsThisRun == old(hitsThisRun)
      ensures vy == old(vy)
      ensures var band := SelectBand(d, senseRange, attackRange);
              && (band == OutOfSense ==> vx == 0.0 && !walking && !attackFlag
                                         && isFacingRight == old(isFacingRight)
                                         && isAttacking == old(isAttacking) && run == old(run))
              && (band == ChaseBand ==> vx == dirX * moveSpeed && walking && !attackFlag
                                        && isFacingRight == FaceAgainstTravel(old(isFacingRight), dirX)
                                        && isAttacking == old(isAttacking) && run == old(run))
              && (band == AttackBand && old(isAttacking) ==>
                    vx == old(vx) && walking == old(walking) && attackFlag == old(attackFlag)
                    && isFacingRight == old(isFacingRight) && run == old(run))
              && (band == AttackBand && !old(isAttacking) ==>
                    vx == 0.0 && attackFlag && isAttacking && walking == old(walking) && run == WindUp(WindUpTime) && hitsThisRun == 0
                    && isFacingRight == old(isFacingRight))
    {
      var band := SelectBand(d, senseRange, attackRange);
      if band == ChaseBand {
        ChasePlayer(dirX);
      } else if band == AttackBand {
        if !isAttacking {
          Attack();
        }
      } else {
        Idle();
      }
    }

    /** "Walking" on, horizontal velocity towards the player, "Attack" off.
        The facing rule is the reverse of the wolf's. */
    method ChasePlayer(dirX: real)
      requires Valid()
      modifies this`walking, this`vx, this`isFacingRight, this`scaleX, this`attackFlag
      ensures Valid()
      ensures walking && !attackFlag && vx == dirX * moveSpeed
      ensures isFacingRight == FaceAgainstTravel(old(isFacingRight), dirX)
    {
      walking := true;
      vx := dirX * moveSpeed;
      if dirX < 0.0 && !isFacingRight {
        Flip();
      } else if dirX > 0.0 && isFacingRight {
        Flip();
      }
      attackFlag := false;
    }

    /** Stops horizontally and clears both flags; an attack run in progress
        goes on. */
    method Idle()
      modifies this`vx, this`walking, this`attackFlag
      ensures vx == 0.0 && !walking && !attackFlag
    {
      vx := 0.0;
      walking := false;
      attackFlag := false;
    }

    /** The start of the `Attack` coroutine, up to its first wait. */
    method Attack()
      requires Valid() && !isAttacking
      modifies this`isAttacking, this`vx, this`attackFlag, this`run, this`hitsThisRun
      ensures Valid()
      ensures isAttacking && vx == 0.0 && attackFlag && run == WindUp(WindUpTime) && hitsThisRun == 0
    {
      isAttacking := true;
      vx := 0.0;
      attackFlag := true;
      hitsThisRun := 0;
      run := WindUp(WindUpTime);
    }

    /** `dt` seconds pass for the attack coroutine. When the wind-up ends it
        checks the distance `dNow` again and calls the player's `TakeHit`
        only if the player is still within range (and has a controller);
        when the cooldown ends the flag and the latch are released. */
    method Tick(dt: real, dNow: real, target: MovementChar.PlayerController?)
      requires Valid()
      requires target != null ==> target.Valid()
      modifies this`run, this`isAttacking, this`hitsThisRun, this`attackFlag,
               MovementChar.Present(target)`hitCount, MovementChar.Present(target)`dieTriggers, MovementChar.Present(target)`vx, MovementChar.Present(target)`vy,
               MovementChar.Present(target)`enabled
      ensures Valid()
      ensures target != null ==> target.Valid()
      ensures run == AdvanceRun(old(run), dt, attackCooldown)
      ensures isAttacking == !run.Ready?
      ensures var hits := HitResolves(old(run), dt) && dNow <= attackRange && target != null;
              && hitsThisRun == old(hitsThisRun) + (if hits then 1 else 0)
              && (target != null ==> target.hitCount == old(target.hitCount) + (if hits then 1 else 0))
              && (target != null && !hits ==> unchanged(target))
              && (hits && target.hitCount >= target.hitLimit ==>
                    target.dieTriggers == old(target.dieTriggers) + 1
                    && target.vx == 0.0 && target.vy == 0.0 && !target.enabled)
              && (hits && target.hitCount < target.hitLimit ==>
                    target.dieTriggers == old(target.dieTriggers) && target.vx == old(target.vx)
                    && target.vy == old(target.vy) && target.enabled == old(target.enabled))
      ensures attackFlag == (old(attackFlag) && !(old(run).Recover? && run.Ready?))
      ensures vx == old(vx) && vy == old(vy) && isFacingRight == old(isFacingRight)
    {
      match run {
        case Ready =>
        case WindUp(left) =>
          if left - dt <= 0.0 {
            if dNow <= attackRange && target != null {
              target.TakeHit();
              hitsThisRun := hitsThisRun + 1;
            }
            run := Recover(attackCooldown);
          } else {
            run := WindUp(left - dt);
          }
        case Recover(left) =>
          if left - dt <= 0.0 {
            attackFlag := false;
            isAttacking := false;
            run := Ready;
          } else {
            run := Recover(left - dt);
          }
      }
    }

    /** Turns round: the facing and the sign of the x scale both change, so
        two flips restore both. */
    method Flip()
      requires Valid()
      modifies this`isFacingRight, this`scaleX
      ensures Valid()
      ensures isFacingRight == !old(isFacingRight) && scaleX == -old(scaleX)
    {
      isFacingRight := !isFacingRight;
      scaleX := -scaleX;
    }
  }
}
