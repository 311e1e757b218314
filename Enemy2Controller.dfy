/** The `Enemy2Controller` ranged enemy (Assets/Scripts/Enemy2Controller.cs):
    the same chase / attack / idle bands as `Enemy2`, but its attack stops it
    completely, fires a bullet, and hits the player 0.1 s later without
    checking the distance again. */
module Enemy2Controller {
  import opened GameCommon
  import MovementChar

  /** The wait between the shot and the hit. */
  const WindUpTime: real := 0.1

  class Enemy2Controller {
    const moveSpeed: real
    const senseRange: real
    const attackRange: real
    const attackCooldown: real
    /** `transform.localScale.x` at the start (facing right). */
    const baseScaleX: real
    /** Whether the `player` and `bulletPrefab` references are assigned. */
    const hasPlayer: bool
    const hasBulletPrefab: bool

    var isAttacking: bool
    var isFacingRight: bool
    var scaleX: real
    /** The `Attack` coroutine. */
    var run: AttackRun
    /** `rb.linearVelocity`. */
    var vx: real
    var vy: real
    /** The animator's "Walking" and "Attack" flags. */
    var walking: bool
    var attackFlag: bool
    /** Bullets instantiated by `Shoot`. */
    var bulletsSpawned: nat
    /** `TakeHit` calls made by the attack run in progress. */
    var hitsThisRun: nat

    ghost predicate Valid()
      reads this`isFacingRight, this`scaleX, this`isAttacking, this`run, this`hitsThisRun
    {
      && scaleX == (if isFacingRight then baseScaleX else -baseScaleX)
      && (isAttacking <==> !run.Ready?)
      && hitsThisRun <= 1
      && (run.WindUp? ==> hitsThisRun == 0)
    }

    constructor (moveSpeed: real, senseRange: real, attackRange: real, attackCooldown: real, baseScaleX: real,
                 hasPlayer: bool, hasBulletPrefab: bool)
      ensures Valid()
      ensures this.moveSpeed == moveSpeed && this.senseRange == senseRange
      ensures this.attackRange == attackRange && this.attackCooldown == attackCooldown
      ensures this.baseScaleX == baseScaleX
      ensures this.hasPlayer == hasPlayer && this.hasBulletPrefab == hasBulletPrefab
      ensures !isAttacking && isFacingRight && run == Ready && bulletsSpawned == 0
    {
      this.moveSpeed := moveSpeed;
      this.senseRange := senseRange;
      this.attackRange := attackRange;
      this.attackCooldown := attackCooldown;
      this.baseScaleX := baseScaleX;
      this.hasPlayer := hasPlayer;
      this.hasBulletPrefab := hasBulletPrefab;
      isAttacking := false;
      isFacingRight := true;
      scaleX := baseScaleX;
      run := Ready;
      vx, vy := 0.0, 0.0;
      walking, attackFlag := false, false;
      bulletsSpawned := 0;
      hitsThisRun := 0;
    }

    /** One frame, `d` being the distance to the player and `dirX` the x
        part of the unit vector towards it; no dead guard. */
    method Update(d: real, dirX: real)
      requires Valid()
      modifies this`walking, this`vx, this`isFacingRight, this`scaleX, this`attackFlag, this`isAttacking,
               this`run, this`hitsThisRun, this`vy, this`bulletsSpawned
      ensures Valid()
      ensures !(SelectBand(d, senseRange, attackRange) == AttackBand && !old(isAttacking)) ==>
                hitsThisRun == old(hitsThisRun)
      ensures var band := SelectBand(d, senseRange, attackRange);
              && (band == OutOfSense ==> vx == 0.0 && vy == old(vy) && !walking && !attackFlag
                                         && isFacingRight == old(isFacingRight)
                                         && isAttacking == old(isAttacking) && run == old(run)
                                         && bulletsSpawned == old(bulletsSpawned))
              && (band == ChaseBand ==> vx == dirX * moveSpeed && vy == old(vy) && walking && !attackFlag
                                        && isFacingRight == FaceAgainstTravel(old(isFacingRight), dirX)
                                        && isAttacking == old(isAttacking) && run == old(run)
                                        && bulletsSpawned == old(bulletsSpawned))
              && (band == AttackBand && old(isAttacking) ==>
                    vx == old(vx) && vy == old(vy) && walking == old(walking) && attackFlag == old(attackFlag)
                    && isFacingRight == old(isFacingRight) && run == old(run)
                    && bulletsSpawned == old(bulletsSpawned))
              && (band == AttackBand && !old(isAttacking) ==>
                    vx == 0.0 && vy == 0.0 && attackFlag && isAttacking && walking == old(walking) && run == WindUp(WindUpTime)
                    && hitsThisRun == 0 && isFacingRight == old(isFacingRight)
                    && bulletsSpawned == old(bulletsSpawned) + (if hasPlayer && hasBulletPrefab then 1 else 0))
    {
      var band := SelectBand(d, senseRange, attackRange);
      if band == ChaseBand {
        ChasePlayer(dirX);
      } else if band == AttackBand {
        if !isAttacking {
          Attack();
        }
      } else {
        Idle();
      }
    }

    /** "Walking" on, horizontal velocity towards the player, "Attack" off,
        with the reversed facing rule. */
    method ChasePlayer(dirX: real)
      requires Valid()
      modifies this`walking, this`vx, this`isFacingRight, this`scaleX, this`attackFlag
      ensures Valid()
      ensures walking && !attackFlag && vx == dirX * moveSpeed
      ensures isFacingRight == FaceAgainstTravel(old(isFacingRight), dirX)
    {
      walking := true;
      vx := dirX * moveSpeed;
      if dirX < 0.0 && !isFacingRight {
        Flip();
      } else if dirX > 0.0 && isFacingRight {
        Flip();
      }
      attackFlag := false;
    }

    /** Stops horizontally and clears both flags; an attack run in progress
        goes on. */
    method Idle()
      modifies this`vx, this`walking, this`attackFlag
      ensures vx == 0.0 && !walking && !attackFlag
    {
      vx := 0.0;
      walking := false;
      attackFlag := false;
    }

    /** The start of the `Attack` coroutine, up to its first wait: latch set,
        both velocity components zeroed, "Attack" on, one `Shoot`. */
    method Attack()
      requires Valid() && !isAttacking
      modifies this`isAttacking, this`vx, this`vy, this`attackFlag, this`run, this`hitsThisRun,
               this`bulletsSpawned
      ensures Valid()
      ensures isAttacking && vx == 0.0 && vy == 0.0 && attackFlag && run == WindUp(WindUpTime)
      ensures hitsThisRun == 0
      ensures bulletsSpawned == old(bulletsSpawned) + (if hasPlayer && hasBulletPrefab then 1 else 0)
    {
      isAttacking := true;
      vx, vy := 0.0, 0.0;
      attackFlag := true;
      Shoot();
      hitsThisRun := 0;
      run := WindUp(WindUpTime);
    }

    /** Does nothing unless both the player and the bullet prefab are
        assigned; otherwise spawns one bullet. */
    method Shoot()
      modifies this`bulletsSpawned
      ensures bulletsSpawned == old(bulletsSpawned) + (if hasPlayer && hasBulletPrefab then 1 else 0)
    {
      if !hasPlayer || !hasBulletPrefab {
        return;
      }
      bulletsSpawned := bulletsSpawned + 1;
    }

    /** `dt` seconds pass for the attack coroutine. When the wind-up ends the
        player's `TakeHit` is called whatever the distance is by then (if the
        player has a controller); when the cooldown ends the flag and the
        latch are released. */
    method Tick(dt: real, target: MovementChar.PlayerController?)
      requires Valid()
      requires target != null ==> target.Valid()
      modifies this`run, this`isAttacking, this`hitsThisRun, this`attackFlag,
               MovementChar.Present(target)`hitCount, MovementChar.Present(target)`dieTriggers, MovementChar.Present(target)`vx, MovementChar.Present(target)`vy,
               MovementChar.Present(target)`enabled
      ensures Valid()
      ensures target != null ==> target.Valid()
      ensures run == AdvanceRun(old(run), dt, attackCooldown)
      ensures isAttacking == !run.Ready?
      ensures var hits := HitResolves(old(run), dt) && target != null;
              && hitsThisRun == old(hitsThisRun) + (if hits then 1 else 0)
              && (target != null ==> target.hitCount == old(target.hitCount) + (if hits then 1 else 0))
              && (target != null && !hits ==> unchanged(target))
              && (hits && target.hitCount >= target.hitLimit ==>
                    target.dieTriggers == old(target.dieTriggers) + 1
                    && target.vx == 0.0 && target.vy == 0.0 && !target.enabled)
              && (hits && target.hitCount < target.hitLimit ==>
                    target.dieTriggers == old(target.dieTriggers) && target.vx == old(target.vx)
                    && target.vy == old(target.vy) && target.enabled == old(target.enabled))
      ensures attackFlag == (old(attackFlag) && !(old(run).Recover? && run.Ready?))
      ensures vx == old(vx) && vy == old(vy) && isFacingRight == old(isFacingRight)
    {
      match run {
        case Ready =>
        case WindUp(left) =>
          if left - dt <= 0.0 {
            if target != null {
              target.TakeHit();
              hitsThisRun := hitsThisRun + 1;
            }
            run := Recover(attackCooldown);
          } else {
            run := WindUp(left - dt);
          }
        case Recover(left) =>
          if left - dt <= 0.0 {
            attackFlag := false;
            isAttacking := false;
            run := Ready;
          } else {
            run := Recover(left - dt);
          }
      }
    }

    method Flip()
      requires Valid()
      modifies this`isFacingRight, this`scaleX
      ensures Valid()
      ensures isFacingRight == !old(isFacingRight) && scaleX == -old(scaleX)
    {
      isFacingRight := !isFacingRight;
      scaleX := -scaleX;
    }
  }
}
