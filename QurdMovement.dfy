/** The wolf enemy, `WolfController` (Assets/Scripts/QurdMovement.cs):
    patrols between two points, chases a sensed player (jumping when the
    player is higher), attacks behind a latch held for `attackCooldown`, and
    dies at two hits. */
module QurdMovement {
  import opened GameCommon

  /** How close to the patrol target counts as arrived (`< 0.2`). */
  const ArriveRadius: real := 0.2
  /** How much higher the player must be for the chasing wolf to jump. */
  const JumpHeight: real := 0.5

  /** The patrol target after an arrival: B after A, A after anything else.
      (The comparison is with A's position.) */
  function OtherPoint(t: Vec2, a: Vec2, b: Vec2): Vec2
  {
    if t == a then b else a
  }

  /** The target after `n` arrivals, starting from `t`. */
  function TargetAfter(t: Vec2, a: Vec2, b: Vec2, n: nat): Vec2
    decreases n
  {
    if n == 0 then t else TargetAfter(OtherPoint(t, a, b), a, b, n - 1)
  }

  /** From the start at A the wolf heads for A, B, A, B, ... in turn: after
      `n` arrivals its target is A for even `n` and B for odd `n` (with
      distinct points), and it is always one of the two. */
  lemma {:induction false} PatrolAlternates(a: Vec2, b: Vec2, n: nat)
    ensures a != b ==> TargetAfter(a, a, b, n) == (if n % 2 == 0 then a else b)
    ensures TargetAfter(a, a, b, n) == a || TargetAfter(a, a, b, n) == b
  {
    if n > 0 {
      if n == 1 {
      } else {
        PatrolAlternates(a, b, n - 2);
        assert TargetAfter(a, a, b, n) == TargetAfter(a, a, b, n - 2) by {
          TwoArrivalsReturn(a, b, n - 2);
        }
      }
    }
  }

  /** Two arrivals in a row from A bring the target back to A. */
  lemma {:induction false} TwoArrivalsReturn(a: Vec2, b: Vec2, n: nat)
    ensures TargetAfter(a, a, b, n + 2) == TargetAfter(a, a, b, n)
  {
    assert TargetAfter(a, a, b, n + 2) == TargetAfter(OtherPoint(OtherPoint(a, a, b), a, b), a, b, n) by {
      TargetAfterShift(a, a, b, n + 1);
      TargetAfterShift(OtherPoint(a, a, b), a, b, n);
    }
    assert OtherPoint(OtherPoint(a, a, b), a, b) == a;
  }

  /** Unfolding one arrival at the front. */
  lemma TargetAfterShift(t: Vec2, a: Vec2, b: Vec2, n: nat)
    ensures TargetAfter(t, a, b, n + 1) == TargetAfter(OtherPoint(t, a, b), a, b, n)
  {
  }

  class WolfController {
    const pointA: Vec2
    const pointB: Vec2
    const patrolSpeed: real
    const chaseSpeed: real
    const senseRange: real
    const attackRange: real
    const attackCooldown: real
    const jumpForce: real
    /** The wolf dies after two hits. */
    const hitLimit: int := 2
    /** `transform.localScale.x` at the start (facing right). */
    const baseScaleX: real

    var hitCount: int
    var isDead: bool
    /** The component's `enabled` flag; `Die` clears it. */
    var enabled: bool
    var isFacingRight: bool
    var scaleX: real
    var currentPatrolTarget: Vec2
    var isAttacking: bool
    /** The `Attack` coroutine's `WaitForSeconds(attackCooldown)`. */
    var attackWait: Wait
    /** `rb.linearVelocity`. */
    var vx: real
    var vy: real
    /** Animator: the "Speed" float and how often each trigger was set. */
    var speedParam: real
    var attackTriggers: nat
    var jumpTriggers: nat
    var dieTriggers: nat

    ghost predicate Valid()
      reads this`currentPatrolTarget, this`hitCount, this`isDead, this`enabled, this`scaleX,
            this`isFacingRight, this`isAttacking, this`attackWait
    {
      && (currentPatrolTarget == pointA || currentPatrolTarget == pointB)
      && hitCount >= 0
      && (isDead <==> hitCount >= hitLimit)
      && enabled == !isDead
      && scaleX == (if isFacingRight then baseScaleX else -baseScaleX)
      && (isAttacking <==> attackWait.Waiting?)
    }

    /** The field initialisers and `Start`: patrol begins towards A. */
    constructor (pointA: Vec2, pointB: Vec2, patrolSpeed: real, chaseSpeed: real, senseRange: real,
                 attackRange: real, attackCooldown: real, jumpForce: real, baseScaleX: real)
      ensures Valid()
      ensures this.pointA == pointA && this.pointB == pointB && this.patrolSpeed == patrolSpeed
      ensures this.chaseSpeed == chaseSpeed && this.senseRange == senseRange
      ensures this.attackRange == attackRange && this.attackCooldown == attackCooldown
      ensures this.jumpForce == jumpForce && this.baseScaleX == baseScaleX
      ensures currentPatrolTarget == pointA
      ensures hitCount == 0 && !isDead && enabled && isFacingRight && !isAttacking
    {
      this.pointA := pointA;
      this.pointB := pointB;
      this.patrolSpeed := patrolSpeed;
      this.chaseSpeed := chaseSpeed;
      this.senseRange := senseRange;
      this.attackRange := attackRange;
      this.attackCooldown := attackCooldown;
      this.jumpForce := jumpForce;
      this.baseScaleX := baseScaleX;
      hitCount := 0;
      isDead := false;
      enabled := true;
      isFacingRight := true;
      scaleX := baseScaleX;
      currentPatrolTarget := pointA;
      isAttacking := false;
      attackWait := Idle;
      vx, vy := 0.0, 0.0;
      speedParam := 0.0;
      attackTriggers, jumpTriggers, dieTriggers := 0, 0, 0;
    }

    /** One frame. `d` is the distance to the player, `playerDirX` and
        `targetDirX` the x parts of the unit vectors towards the player and
        the patrol target, `targetDist` the distance to the patrol target,
        and `grounded` the ground-check overlap. Nothing happens once the
        wolf is dead; otherwise the distance band decides: patrol, chase
        (with a jump when the player is more than 0.5 higher and the wolf is
        grounded), or start an attack if none is in progress. */
    method Update(d: real, playerDirX: real, playerY: real, selfY: real, grounded: bool,
                  targetDirX: real, targetDist: real)
      requires Valid()
      modifies this`vx, this`vy, this`isFacingRight, this`scaleX, this`speedParam, this`currentPatrolTarget,
               this`isAttacking, this`attackWait, this`attackTriggers, this`jumpTriggers
      ensures Valid()
      ensures hitCount == old(hitCount) && isDead == old(isDead) && enabled == old(enabled)
      ensures dieTriggers == old(dieTriggers)
      ensures !old(AttackStarts(d)) ==> attackWait == old(attackWait)
      ensures old(isDead) || Band(d) == AttackBand ==> speedParam == old(speedParam)
      ensures !old(isDead) && Band(d) != AttackBand ==> speedParam == Abs(vx)
      ensures attackTriggers == old(attackTriggers) + (if old(AttackStarts(d)) then 1 else 0)
      ensures old(isDead) || Band(d) == AttackBand ==>
                currentPatrolTarget == old(currentPatrolTarget) && isFacingRight == old(isFacingRight)
      ensures old(isDead) ==> vx == old(vx) && vy == old(vy) && isAttacking == old(isAttacking)
                              && jumpTriggers == old(jumpTriggers)
      ensures !old(isDead) && Band(d) == OutOfSense ==>
                vx == targetDirX * patrolSpeed && vy == old(vy)
                && isFacingRight == FaceTravel(old(isFacingRight), targetDirX)
                && currentPatrolTarget == (if targetDist < ArriveRadius then OtherPoint(old(currentPatrolTarget), pointA, pointB)
                                           else old(currentPatrolTarget))
                && isAttacking == old(isAttacking) && jumpTriggers == old(jumpTriggers)
      ensures !old(isDead) && Band(d) == ChaseBand ==>
                var jumps := playerY > selfY + JumpHeight && grounded;
                vx == playerDirX * chaseSpeed && vy == (if jumps then jumpForce else old(vy))
                && isFacingRight == FaceTravel(old(isFacingRight), playerDirX)
                && currentPatrolTarget == old(currentPatrolTarget)
                && isAttacking == old(isAttacking)
                && jumpTriggers == old(jumpTriggers) + (if jumps then 1 else 0)
      ensures !old(isDead) && Band(d) == AttackBand ==>
                jumpTriggers == old(jumpTriggers)
                && (old(isAttacking) ==> vx == old(vx) && vy == old(vy) && isAttacking && attackWait == old(attackWait))
                && (!old(isAttacking) ==> vx == 0.0 && vy == 0.0 && isAttacking && attackWait == Waiting(attackCooldown))
    {
      if isDead {
        return;
      }
      var band := SelectBand(d, senseRange, attackRange);
      if band == ChaseBand {
        ChasePlayer(playerDirX);
        if playerY > selfY + JumpHeight && grounded {
          Jump();
        }
      } else if band == AttackBand {
        if !isAttacking {
          Attack();
        }
      } else {
        Patrol(targetDirX, targetDist);
      }
    }

    function Band(d: real): Band
    {
      SelectBand(d, senseRange, attackRange)
    }

    /** An attack starts in this frame: alive, within attack range and not
        already attacking. */
    predicate AttackStarts(d: real)
      reads this`isDead, this`isAttacking
    {
      !isDead && Band(d) == AttackBand && !isAttacking
    }

    /** Walk towards the patrol target; on arrival head for the other point. */
    method Patrol(dirX: real, targetDist: real)
      requires Valid()
      modifies this`vx, this`isFacingRight, this`scaleX, this`speedParam, this`currentPatrolTarget
      ensures Valid()
      ensures vx == dirX * patrolSpeed
      ensures isFacingRight == FaceTravel(old(isFacingRight), dirX)
      ensures speedParam == Abs(vx)
      ensures currentPatrolTarget == (if targetDist < ArriveRadius then OtherPoint(old(currentPatrolTarget), pointA, pointB)
                                      else old(currentPatrolTarget))
    {
      vx := dirX * patrolSpeed;
      Face(dirX);
      speedParam := Abs(vx);
      if targetDist < ArriveRadius {
        currentPatrolTarget := OtherPoint(currentPatrolTarget, pointA, pointB);
      }
    }

    /** Run towards the player. */
    method ChasePlayer(dirX: real)
      requires Valid()
      modifies this`vx, this`isFacingRight, this`scaleX, this`speedParam
      ensures Valid()
      ensures vx == dirX * chaseSpeed
      ensures isFacingRight == FaceTravel(old(isFacingRight), dirX)
      ensures speedParam == Abs(vx)
    {
      vx := dirX * chaseSpeed;
      Face(dirX);
      speedParam := Abs(vx);
    }

    /** The two-way comparison shared by `Patrol` and `ChasePlayer`: flip when the
        step goes the other way from the facing. */
    method Face(dirX: real)
      requires Valid()
      modifies this`isFacingRight, this`scaleX
      ensures Valid()
      ensures isFacingRight == FaceTravel(old(isFacingRight), dirX)
    {
      if dirX > 0.0 && !isFacingRight {
        Flip();
      } else if dirX < 0.0 && isFacingRight {
        Flip();
      }
    }

    /** The start of the `Attack` coroutine, up to its wait: latch set,
        wolf stopped, "Attack" trigger. */
    method Attack()
      requires Valid() && !isAttacking
      modifies this`isAttacking, this`attackWait, this`vx, this`vy, this`attackTriggers
      ensures Valid()
      ensures isAttacking && attackWait == Waiting(attackCooldown)
      ensures vx == 0.0 && vy == 0.0 && attackTriggers == old(attackTriggers) + 1
    {
      isAttacking := true;
      vx, vy := 0.0, 0.0;
      attackTriggers := attackTriggers + 1;
      attackWait := Waiting(attackCooldown);
    }

    method Jump()
      modifies this`vy, this`jumpTriggers
      ensures vy == jumpForce && jumpTriggers == old(jumpTriggers) + 1
    {
      vy := jumpForce;
      jumpTriggers := jumpTriggers + 1;
    }

    /** `dt` seconds pass for the attack coroutine; when its wait is over the
        latch is released. This goes on after death: disabling the component
        does not stop its coroutines. */
    method Tick(dt: real)
      requires Valid()
      modifies this`attackWait, this`isAttacking
      ensures Valid()
      ensures attackWait == Advance(old(attackWait), dt)
      ensures isAttacking == (old(isAttacking) && attackWait.Waiting?)
    {
      if attackWait.Waiting? {
        attackWait := Advance(attackWait, dt);
        if attackWait == Idle {
          isAttacking := false;
        }
      }
    }

    /** Adds exactly one hit and calls `Die` iff the count has reached two;
        there is no dead guard. */
    method TakeHit()
      requires Valid()
      modifies this`hitCount, this`isDead, this`vx, this`vy, this`dieTriggers, this`enabled
      ensures Valid()
      ensures hitCount == old(hitCount) + 1
      ensures hitCount >= hitLimit ==> isDead && !enabled && vx == 0.0 && vy == 0.0
                                       && dieTriggers == old(dieTriggers) + 1
      ensures hitCount < hitLimit ==> !isDead && vx == old(vx) && vy == old(vy)
                                      && dieTriggers == old(dieTriggers)
    {
      hitCount := hitCount + 1;
      if hitCount >= hitLimit {
        Die();
      }
    }

    /** Dead, stopped, "Die" trigger, component disabled. */
    method Die()
      modifies this`isDead, this`vx, this`vy, this`dieTriggers, this`enabled
      ensures isDead && !enabled && vx == 0.0 && vy == 0.0 && dieTriggers == old(dieTriggers) + 1
    {
      isDead := true;
      vx, vy := 0.0, 0.0;
      dieTriggers := dieTriggers + 1;
      enabled := false;
    }

    /** Turns round: the facing and the sign of the x scale both change. */
    method Flip()
      requires Valid()
      modifies this`isFacingRight, this`scaleX
      ensures Valid()
      ensures isFacingRight == !old(isFacingRight) && scaleX == -old(scaleX)
    {
      isFacingRight := !isFacingRight;
      scaleX := -scaleX;
    }
  }
}
