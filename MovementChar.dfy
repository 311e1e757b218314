/** The player's `PlayerController` (Assets/Scripts/MovementChar.cs):
    walking, jumping from a refillable jump counter, a dash that spends
    charges from a pool with a recharge countdown, an ungated light attack and
    a heavy attack behind a cooldown and an "active" latch, single-target hit
    resolution, and death by hit count. */
module MovementChar {
  import opened GameCommon
  import EnemyHealth

  // ---------------------------------------------------------------------------
  // Dash-charge pool
  // ---------------------------------------------------------------------------

  /** `dashCharges` and `dashCooldownTimer`. */
  datatype DashPool = DashPool(charges: int, timer: real)

  predicate PoolInRange(p: DashPool, maxCharges: nat)
  {
    0 <= p.charges <= maxCharges
  }

  /** The recharge step at the top of `Update`: while no charge is left the
      timer runs down, and the pool refills when it reaches zero. */
  function Recharge(p: DashPool, dt: real, maxCharges: nat): DashPool
  {
    if p.charges <= 0 then
      var t := p.timer - dt;
      DashPool(if t <= 0.0 then maxCharges else p.charges, t)
    else
      p
  }

  /** `HandleDash` spending a charge; the dash that empties the pool arms the
      recharge timer. */
  function Spend(p: DashPool, dashCooldown: real): DashPool
  {
    var c := p.charges - 1;
    DashPool(c, if c <= 0 then dashCooldown else p.timer)
  }

  /** A dash starts in this `Update` iff one is asked for (the dash key went
      down while not dashing) and a charge is left after the recharge step. */
  predicate DashStarts(p: DashPool, dt: real, maxCharges: nat, wantsDash: bool)
  {
    wantsDash && Recharge(p, dt, maxCharges).charges > 0
  }

  /** The pool across one `Update`. */
  function PoolFrame(p: DashPool, dt: real, maxCharges: nat, dashCooldown: real, wantsDash: bool): (q: DashPool)
    ensures PoolInRange(p, maxCharges) ==> PoolInRange(q, maxCharges)
    ensures DashStarts(p, dt, maxCharges, wantsDash) ==>
              q.charges == Recharge(p, dt, maxCharges).charges - 1
              && (q.charges == 0 ==> q.timer == dashCooldown)
    ensures !DashStarts(p, dt, maxCharges, wantsDash) ==> q == Recharge(p, dt, maxCharges)
    ensures p.charges > 0 && !wantsDash ==> q == p
  {
    var r := Recharge(p, dt, maxCharges);
    if wantsDash && r.charges > 0 then Spend(r, dashCooldown) else r
  }

  /** One frame's worth of pool input. */
  datatype PoolInput = PoolInput(dt: real, wantsDash: bool)

  function RunPool(p: DashPool, frames: seq<PoolInput>, maxCharges: nat, dashCooldown: real): DashPool
    decreases |frames|
  {
    if frames == [] then p
    else RunPool(PoolFrame(p, frames[0].dt, maxCharges, dashCooldown, frames[0].wantsDash),
                 frames[1..], maxCharges, dashCooldown)
  }

  /** The pool stays within [0, maxDashCharges] over any run of frames. */
  lemma {:induction false} PoolStaysInRange(p: DashPool, frames: seq<PoolInput>, maxCharges: nat, dashCooldown: real)
    requires PoolInRange(p, maxCharges)
    ensures PoolInRange(RunPool(p, frames, maxCharges, dashCooldown), maxCharges)
    decreases |frames|
  {
    if frames != [] {
      PoolStaysInRange(PoolFrame(p, frames[0].dt, maxCharges, dashCooldown, frames[0].wantsDash),
                       frames[1..], maxCharges, dashCooldown);
    }
  }

  /** Frames in which no dash is asked for. */
  function Quiet(dts: seq<real>): (fs: seq<PoolInput>)
    ensures |fs| == |dts|
    ensures forall i :: 0 <= i < |dts| ==> fs[i] == PoolInput(dts[i], false)
  {
    seq(|dts|, i requires 0 <= i < |dts| => PoolInput(dts[i], false))
  }

  /** A full pool stays full while no dash is asked for. */
  lemma {:induction false} FullPoolStaysFull(dts: seq<real>, timer: real, maxCharges: nat, dashCooldown: real)
    ensures RunPool(DashPool(maxCharges, timer), Quiet(dts), maxCharges, dashCooldown).charges == maxCharges
    decreases |dts|
  {
    if dts != [] {
      var q := PoolFrame(DashPool(maxCharges, timer), dts[0], maxCharges, dashCooldown, false);
      assert q.charges == maxCharges;
      assert Quiet(dts)[1..] == Quiet(dts[1..]);
      FullPoolStaysFull(dts[1..], q.timer, maxCharges, dashCooldown);
    }
  }

  /** An empty pool refills exactly when the time that has passed reaches
      what was left on the recharge timer, and not before: until then the
      timer has dropped by exactly the elapsed time. */
  lemma {:induction false} EmptyPoolRefills(dts: seq<real>, timer: real, maxCharges: nat, dashCooldown: real)
    requires AllNonNegative(dts)
    ensures var q := RunPool(DashPool(0, timer), Quiet(dts), maxCharges, dashCooldown);
            (SumReal(dts) < timer ==> q == DashPool(0, timer - SumReal(dts)))
            && (dts != [] && SumReal(dts) >= timer ==> q.charges == maxCharges)
    decreases |dts|
  {
    if dts != [] {
      var rest := dts[1..];
      assert AllNonNegative(rest) by {
        forall i | 0 <= i < |rest| ensures rest[i] >= 0.0 { assert rest[i] == dts[i + 1]; }
      }
      assert Quiet(dts)[1..] == Quiet(rest);
      SumRealNonNegative(rest);
      var t := timer - dts[0];
      if t <= 0.0 {
        FullPoolStaysFull(rest, t, maxCharges, dashCooldown);
      } else {
        EmptyPoolRefills(rest, t, maxCharges, dashCooldown);
      }
    }
  }

  /** A concrete run with two charges and a
      one-second recharge: two dashes 0.1 s apart both start (2, 1, 0
      charges), a third at 0.2 s does not, and after a further second the
      pool is full again. */
  lemma DashScenario()
    ensures var p1 := PoolFrame(DashPool(2, 0.0), 0.1, 2, 1.0, true);
            var p2 := PoolFrame(p1, 0.1, 2, 1.0, true);
            var p3 := PoolFrame(p2, 0.1, 2, 1.0, true);
            var p4 := RunPool(p3, Quiet([0.5, 0.5]), 2, 1.0);
            DashStarts(DashPool(2, 0.0), 0.1, 2, true) && p1.charges == 1
            && DashStarts(p1, 0.1, 2, true) && p2 == DashPool(0, 1.0)
            && !DashStarts(p2, 0.1, 2, true) && p3.charges == 0
            && p4.charges == 2
  {
    EmptyPoolRefills([0.5, 0.5], 0.9, 2, 1.0);
    assert SumReal([0.5, 0.5]) == 1.0 by {
      assert [0.5, 0.5][1..] == [0.5];
    }
  }

  // ---------------------------------------------------------------------------
  // Movement helpers
  // ---------------------------------------------------------------------------

  /** `PerformDash`: the raw horizontal input, or the facing (`flipX ? -1 : 1`)
      when the input is neutral, so a dash always moves. */
  function DashDirection(input: real, flipX: bool): (d: real)
    ensures d != 0.0
    ensures input != 0.0 ==> d == input
    ensures input == 0.0 ==> (d < 0.0 <==> flipX)
  {
    if input == 0.0 then (if flipX then -1.0 else 1.0) else input
  }

  /** `HandleMovement`'s sprite flip: facing left after a leftward input,
      right after a rightward one, unchanged (sticky) on a neutral one. */
  function FlipAfterInput(flipX: bool, input: real): (f: bool)
    ensures input < 0.0 ==> f
    ensures input > 0.0 ==> !f
    ensures input == 0.0 ==> f == flipX
  {
    if input < 0.0 then true else if input > 0.0 then false else flipX
  }

  // ---------------------------------------------------------------------------
  // Hit resolution
  // ---------------------------------------------------------------------------

  /** One object returned by `FindGameObjectsWithTag("Enemy")`, in query
      order: its distance from the player and its `EnemyHealth` component,
      if it has one. */
  datatype EnemyTarget = EnemyTarget(distance: real, health: EnemyHealth.EnemyHealth?)

  /** The objects' `EnemyHealth` components. */
  function Healths(enemies: seq<EnemyTarget>): set<EnemyHealth.EnemyHealth>
  {
    set i | 0 <= i < |enemies| && enemies[i].health != null :: enemies[i].health
  }

  ghost predicate AllValid(enemies: seq<EnemyTarget>)
    reads Healths(enemies)
  {
    forall h :: h in Healths(enemies) ==> h.Valid()
  }

  /** The enemy `DamageEnemy` picks from index `i` on: the FIRST one in
      query order within `range`, not the nearest one. */
  function FirstInRangeFrom(enemies: seq<EnemyTarget>, range: real, i: nat): (k: Option<nat>)
    requires i <= |enemies|
    ensures k.Some? ==> i <= k.value < |enemies| && enemies[k.value].distance <= range
    ensures k.Some? ==> forall j :: i <= j < k.value ==> enemies[j].distance > range
    ensures k.None? <==> forall j :: i <= j < |enemies| ==> enemies[j].distance > range
    decreases |enemies| - i
  {
    if i == |enemies| then None
    else if enemies[i].distance <= range then Some(i)
    else FirstInRangeFrom(enemies, range, i + 1)
  }

  function FirstInRange(enemies: seq<EnemyTarget>, range: real): Option<nat>
  {
    FirstInRangeFrom(enemies, range, 0)
  }

  /** `DamageEnemy` with target index `k` reaches the component `h`. */
  predicate Targets(enemies: seq<EnemyTarget>, k: Option<nat>, h: EnemyHealth.EnemyHealth)
  {
    k.Some? && k.value < |enemies| && enemies[k.value].health == h
  }

  /** An enemy's state after a hit of `damage` that may or may not reach
      it. */
  function HitIf(e: EnemyHealth.HealthState, hit: bool, damage: int): EnemyHealth.HealthState
  {
    if hit then EnemyHealth.Damaged(e, damage) else e
  }

  /** The `foreach ... break` scan of `DamageEnemy`: it stops at the first
      enemy within `range`, or finds none iff every enemy is out of range. */
  method FindTarget(enemies: seq<EnemyTarget>, range: real) returns (k: Option<nat>)
    ensures k.Some? ==> k.value < |enemies| && enemies[k.value].distance <= range
    ensures k.Some? ==> forall j :: 0 <= j < k.value ==> enemies[j].distance > range
    ensures k.None? <==> forall j :: 0 <= j < |enemies| ==> enemies[j].distance > range
    ensures k == FirstInRange(enemies, range)
  {
    k := None;
    var i := 0;
    while i < |enemies|
      invariant 0 <= i <= |enemies|
      invariant forall j :: 0 <= j < i ==> enemies[j].distance > range
    {
      if enemies[i].distance <= range {
        k := Some(i);
        break;
      }
      i := i + 1;
    }
  }

  /** `DamageEnemy(range, ...)` reaches an `EnemyHealth` component, i.e.
      calls `TakeDamage`. */
  predicate HitsHealth(enemies: seq<EnemyTarget>, range: real)
  {
    var k := FirstInRange(enemies, range);
    k.Some? && k.value < |enemies| && enemies[k.value].health != null
  }

  // ---------------------------------------------------------------------------
  // The attack latch, with and without the exception from `TakeDamage`
  // ---------------------------------------------------------------------------

  /** The attack bookkeeping of the player: how many `ResetAttack` waits are
      pending, the `heavyAttackActive` latch, whether a `ResetHeavyAttack`
      poll is running, and the heavy cooldown. `Update` only adds waits;
      `ExpireLightResets` removes the ones that run out. */
  datatype AttackState = AttackState(pendingLightResets: nat, heavyActive: bool, polling: bool, cooldown: real)

  /** One frame's inputs to the attack part of `Update`: J and K, whether each
      attack's target carries an `EnemyHealth`, and whether the heavy
      animation has finished. */
  datatype AttackInput = AttackInput(dt: real, lightDown: bool, heavyDown: bool,
                                     lightHitsHealth: bool, heavyHitsHealth: bool, animDone: bool)

  /** The heavy attack fires this frame: K with the cooldown (after this
      frame's countdown) run out and the latch clear. */
  predicate HeavyFires(s: AttackState, f: AttackInput)
  {
    f.heavyDown && CooldownStep(s.cooldown, f.dt) <= 0.0 && !s.heavyActive
  }

  /** The cooldown countdown and `HandleAttack` in one frame. `throws` says
      whether `TakeDamage` throws (the animator of `EnemyHealth` unassigned):
      a throwing light hit ends `Update` before `ResetAttack` starts and before
      the heavy block; a throwing heavy hit ends it after the latch is set but
      before `ResetHeavyAttack` starts and the cooldown is set. */
  function AttackFrame(s: AttackState, f: AttackInput, heavyCooldown: real, throws: bool): (r: AttackState)
    ensures r.pendingLightResets == s.pendingLightResets + (if f.lightDown && !(throws && f.lightHitsHealth) then 1 else 0)
    ensures var fires := !(throws && f.lightDown && f.lightHitsHealth) && HeavyFires(s, f);
            && (!fires ==> r.heavyActive == s.heavyActive && r.polling == s.polling
                           && r.cooldown == CooldownStep(s.cooldown, f.dt))
            && (fires && throws && f.heavyHitsHealth ==> r.heavyActive && r.polling == s.polling
                                                         && r.cooldown == CooldownStep(s.cooldown, f.dt))
            && (fires && !(throws && f.heavyHitsHealth) ==> r.heavyActive == !f.animDone && r.polling == !f.animDone
                                                            && r.cooldown == heavyCooldown)
  {
    var t := CooldownStep(s.cooldown, f.dt);
    var lightThrows := throws && f.lightDown && f.lightHitsHealth;
    var n := s.pendingLightResets + (if f.lightDown && !lightThrows then 1 else 0);
    if lightThrows || !HeavyFires(s, f) then AttackState(n, s.heavyActive, s.polling, t)
    else if throws && f.heavyHitsHealth then AttackState(n, true, s.polling, t)
    else AttackState(n, !f.animDone, !f.animDone, heavyCooldown)
  }

  /** One resumption of a running `ResetHeavyAttack` poll: it ends, and
      releases the latch, once the animation has finished. */
  function PollStep(s: AttackState, animDone: bool): (r: AttackState)
    ensures s.polling && animDone ==> !r.heavyActive && !r.polling
    ensures !(s.polling && animDone) ==> r == s
  {
    if s.polling && animDone then s.(heavyActive := false, polling := false) else s
  }

  /** A whole frame: `Update` (a poll it starts makes its first check at
      once), then a poll that was already running resumes. */
  function Frame(s: AttackState, f: AttackInput, heavyCooldown: real, throws: bool): AttackState
  {
    var r := AttackFrame(s, f, heavyCooldown, throws);
    if s.polling then PollStep(r, f.animDone) else r
  }

  function RunAttacks(s: AttackState, fs: seq<AttackInput>, heavyCooldown: real, throws: bool): AttackState
    decreases |fs|
  {
    if fs == [] then s else RunAttacks(Frame(s, fs[0], heavyCooldown, throws), fs[1..], heavyCooldown, throws)
  }

  /** Whether the heavy attack fires in some frame of `fs`. */
  predicate HeavyFiresDuring(s: AttackState, fs: seq<AttackInput>, heavyCooldown: real, throws: bool)
    decreases |fs|
  {
    fs != [] &&
    ((!(throws && fs[0].lightDown && fs[0].lightHitsHealth) && HeavyFires(s, fs[0]))
     || HeavyFiresDuring(Frame(s, fs[0], heavyCooldown, throws), fs[1..], heavyCooldown, throws))
  }

  /** The latch is set and no poll will ever release it. */
  predicate Jammed(s: AttackState)
  {
    s.heavyActive && !s.polling
  }

  /** As written, a J press whose target has an `EnemyHealth` starts no
      `ResetAttack`, and in that frame the heavy attack cannot fire even with
      K down. */
  lemma LightResetSkippedAsWritten(s: AttackState, f: AttackInput, heavyCooldown: real)
    requires f.lightDown && f.lightHitsHealth
    ensures AttackFrame(s, f, heavyCooldown, true).pendingLightResets == s.pendingLightResets
    ensures AttackFrame(s, f, heavyCooldown, false).pendingLightResets == s.pendingLightResets + 1
    ensures AttackFrame(s, f, heavyCooldown, true).heavyActive == s.heavyActive
  {
  }

  /** As written, a heavy attack that reaches an `EnemyHealth` leaves the
      latch set with no poll running, and the cooldown is not restarted. */
  lemma HeavyHitOnEnemyHealthJams(s: AttackState, f: AttackInput, heavyCooldown: real)
    requires !(f.lightDown && f.lightHitsHealth) && HeavyFires(s, f) && f.heavyHitsHealth
    requires !s.polling
    ensures Jammed(Frame(s, f, heavyCooldown, true))
    ensures Frame(s, f, heavyCooldown, true).cooldown == CooldownStep(s.cooldown, f.dt)
  {
  }

  /** Once jammed, the latch stays set whatever the player does, and the heavy
      attack never fires again. */
  lemma {:induction false} JammedLatchStaysSet(s: AttackState, fs: seq<AttackInput>, heavyCooldown: real, throws: bool)
    requires Jammed(s)
    ensures Jammed(RunAttacks(s, fs, heavyCooldown, throws))
    ensures !HeavyFiresDuring(s, fs, heavyCooldown, throws)
    decreases |fs|
  {
    if fs != [] {
      JammedLatchStaysSet(Frame(s, fs[0], heavyCooldown, throws), fs[1..], heavyCooldown, throws);
    }
  }

  /** With `TakeDamage` not throwing the latch is only ever set together with
      its poll: `heavyActive == polling` holds in every frame. */
  lemma {:induction false} CorrectedLatchIsAlwaysPolled(s: AttackState, fs: seq<AttackInput>, heavyCooldown: real)
    requires s.heavyActive == s.polling
    ensures RunAttacks(s, fs, heavyCooldown, false).heavyActive == RunAttacks(s, fs, heavyCooldown, false).polling
    decreases |fs|
  {
    if fs != [] {
      CorrectedLatchIsAlwaysPolled(Frame(s, fs[0], heavyCooldown, false), fs[1..], heavyCooldown);
    }
  }

  /** With `TakeDamage` not throwing, a set latch is released in the first
      frame whose animation has finished, and from then on K fires again once
      the cooldown has run out. */
  lemma PolledLatchReleases(s: AttackState, f: AttackInput, g: AttackInput, heavyCooldown: real)
    requires s.heavyActive == s.polling && s.heavyActive && f.animDone
    requires g.heavyDown && CooldownStep(Frame(s, f, heavyCooldown, false).cooldown, g.dt) <= 0.0
    ensures !Frame(s, f, heavyCooldown, false).heavyActive
    ensures HeavyFires(Frame(s, f, heavyCooldown, false), g)
  {
  }

  /** The player a `GetComponent<PlayerController>()` found, as a frame: no
      object when it found none. */
  function Present(p: PlayerController?): set<PlayerController>
  {
    if p == null then {} else {p}
  }

  // ---------------------------------------------------------------------------
  // The controller
  // ---------------------------------------------------------------------------

  /** What one `Update` reads from `Input` and from the animator: the raw
      horizontal axis, the key-down events of the dash (Left Shift), jump,
      light (J) and heavy (K) keys, and whether the HeavyAttack state has
      reached `normalizedTime >= 1` when the heavy attack's reset coroutine
      first polls it. */
  datatype FrameInput = FrameInput(horizontal: real, dashDown: bool, jumpDown: bool,
                                   lightDown: bool, heavyDown: bool, heavyAnimDone: bool)

  class PlayerController {
    const moveSpeed: real
    const jumpForce: real
    const maxJumpCount: nat
    const lightAttackDuration: real
    const heavyAttackCooldown: real
    const lightAttackRange: real
    const heavyAttackRange: real
    const lightAttackDamage: int
    const heavyAttackDamage: int
    const dashSpeed: real
    const dashDuration: real
    const dashCooldown: real
    const maxDashCharges: nat
    /** The code says 100 (its comment says 5). */
    const hitLimit: int := 100

    var hitCount: int
    var jumpCount: int
    var isGrounded: bool
    var heavyAttackCooldownTimer: real
    var heavyAttackActive: bool
    var isDashing: bool
    var dashCharges: int
    var dashCooldownTimer: real
    /** `rb.linearVelocity`. */
    var vx: real
    var vy: real
    /** `spriteRenderer.flipX`: facing left. */
    var flipX: bool
    /** The component's `enabled` flag; `Die` clears it. */
    var enabled: bool
    /** Animator parameters. */
    var animWalking: real
    var animJumping: bool
    var animLightAttack: bool
    var animHeavyAttack: bool
    var animDash: bool
    var animGrounded: bool
    var dieTriggers: nat
    /** The pending part of `PerformDash` (meaningful while `isDashing`). */
    var dashTimeLeft: real
    /** The `ResetAttack("LightAttack", ...)` waits in progress. */
    var lightResets: seq<real>
    // The `ResetHeavyAttack` poll is pending exactly while
    // `heavyAttackActive` holds: it is started right after the latch is set
    // and is the only code that clears it.

    ghost predicate Valid()
      reads this`dashCharges, this`jumpCount, this`isGrounded, this`hitCount, this`enabled
    {
      && 0 <= dashCharges <= maxDashCharges
      && 0 <= jumpCount <= maxJumpCount
      && (isGrounded ==> jumpCount == maxJumpCount)
      && hitCount >= 0
      && (!enabled <==> hitCount >= hitLimit)
    }

    function Pool(): DashPool
      reads this`dashCharges, this`dashCooldownTimer
    {
      DashPool(dashCharges, dashCooldownTimer)
    }

    /** The attack bookkeeping; this controller always runs the reset poll
        while the latch is set. */
    function Attacks(): AttackState
      reads this`lightResets, this`heavyAttackActive, this`heavyAttackCooldownTimer
    {
      AttackState(|lightResets|, heavyAttackActive, heavyAttackActive, heavyAttackCooldownTimer)
    }

    /** The field initialisers and `Start` (which fills the dash pool). */
    constructor (moveSpeed: real, jumpForce: real, maxJumpCount: nat,
                 lightAttackDuration: real, heavyAttackCooldown: real,
                 lightAttackRange: real, heavyAttackRange: real,
                 lightAttackDamage: int, heavyAttackDamage: int,
                 dashSpeed: real, dashDuration: real, dashCooldown: real, maxDashCharges: nat)
      ensures Valid()
      ensures this.moveSpeed == moveSpeed && this.jumpForce == jumpForce
      ensures this.maxJumpCount == maxJumpCount && this.lightAttackDuration == lightAttackDuration
      ensures this.heavyAttackCooldown == heavyAttackCooldown
      ensures this.lightAttackRange == lightAttackRange && this.heavyAttackRange == heavyAttackRange
      ensures this.lightAttackDamage == lightAttackDamage && this.heavyAttackDamage == heavyAttackDamage
      ensures this.dashSpeed == dashSpeed && this.dashDuration == dashDuration
      ensures this.dashCooldown == dashCooldown && this.maxDashCharges == maxDashCharges
      ensures dashCharges == maxDashCharges && dashCooldownTimer == 0.0
      ensures hitCount == 0 && jumpCount == 0 && !isGrounded && enabled
      ensures heavyAttackCooldownTimer == 0.0 && !heavyAttackActive && !isDashing
      ensures lightResets == []
    {
      this.moveSpeed := moveSpeed;
      this.jumpForce := jumpForce;
      this.maxJumpCount := maxJumpCount;
      this.lightAttackDuration := lightAttackDuration;
      this.heavyAttackCooldown := heavyAttackCooldown;
      this.lightAttackRange := lightAttackRange;
      this.heavyAttackRange := heavyAttackRange;
      this.lightAttackDamage := lightAttackDamage;
      this.heavyAttackDamage := heavyAttackDamage;
      this.dashSpeed := dashSpeed;
      this.dashDuration := dashDuration;
      this.dashCooldown := dashCooldown;
      this.maxDashCharges := maxDashCharges;
      hitCount := 0;
      jumpCount := 0;
      isGrounded := false;
      heavyAttackCooldownTimer := 0.0;
      heavyAttackActive := false;
      isDashing := false;
      dashCharges := maxDashCharges;
      dashCooldownTimer := 0.0;
      vx, vy := 0.0, 0.0;
      flipX := false;
      enabled := true;
      animWalking := 0.0;
      animJumping, animLightAttack, animHeavyAttack, animDash, animGrounded := false, false, false, false, false;
      dieTriggers := 0;
      dashTimeLeft := 0.0;
      lightResets := [];
    }

    /** One frame. Unity calls `Update` only while the component is enabled.
        The dash pool follows `PoolFrame`; a dash started this frame locks the
        horizontal velocity, and movement input is applied only when no dash
        is in progress after `HandleDash`. */
    method Update(inp: FrameInput, dt: real, enemies: seq<EnemyTarget>)
      requires Valid() && enabled
      requires AllValid(enemies)
      modifies this`heavyAttackCooldownTimer, this`dashCharges, this`dashCooldownTimer, this`animDash,
               this`isDashing, this`vx, this`dashTimeLeft, this`flipX, this`animWalking, this`vy,
               this`animJumping, this`jumpCount, this`animLightAttack, this`lightResets,
               this`heavyAttackActive, this`animHeavyAttack, this`animGrounded, Healths(enemies)
      ensures Valid() && AllValid(enemies)
      ensures Pool() == PoolFrame(old(Pool()), dt, maxDashCharges, dashCooldown, inp.dashDown && !old(isDashing))
      ensures var started := DashStarts(old(Pool()), dt, maxDashCharges, inp.dashDown && !old(isDashing));
              && isDashing == (old(isDashing) || started)
              && dashTimeLeft == (if started then dashDuration else old(dashTimeLeft))
              && vx == (if started then DashDirection(inp.horizontal, old(flipX)) * dashSpeed
                        else if old(isDashing) then old(vx)
                        else inp.horizontal * moveSpeed)
              && flipX == (if isDashing then old(flipX) else FlipAfterInput(old(flipX), inp.horizontal))
              && animDash == (old(animDash) || started)
              && animWalking == (if isDashing then old(animWalking) else Abs(inp.horizontal))
      ensures var jumped := inp.jumpDown && old(jumpCount) > 0;
              && vy == (if jumped then jumpForce else old(vy))
              && jumpCount == (if isGrounded then maxJumpCount else old(jumpCount) - (if jumped then 1 else 0))
              && animJumping == (!isGrounded && (old(animJumping) || jumped))
      ensures isGrounded == old(isGrounded)
      ensures var fired := inp.heavyDown && CooldownStep(old(heavyAttackCooldownTimer), dt) <= 0.0
                           && !old(heavyAttackActive);
              && heavyAttackCooldownTimer
                 == (if fired then heavyAttackCooldown else CooldownStep(old(heavyAttackCooldownTimer), dt))
              && heavyAttackActive == (if fired then !inp.heavyAnimDone else old(heavyAttackActive))
              && animHeavyAttack == (if fired then !inp.heavyAnimDone else old(animHeavyAttack))
              && forall h :: h in Healths(enemies) ==>
                   h.State() == HitIf(HitIf(old(h.State()),
                                            inp.lightDown && Targets(enemies, FirstInRange(enemies, lightAttackRange), h),
                                            lightAttackDamage),
                                      fired && Targets(enemies, FirstInRange(enemies, heavyAttackRange), h),
                                      heavyAttackDamage)
      ensures animLightAttack == (old(animLightAttack) || inp.lightDown)
      ensures lightResets == old(lightResets) + (if inp.lightDown then [lightAttackDuration] else [])
      ensures hitCount == old(hitCount) && enabled
      ensures animGrounded == isGrounded
      ensures Attacks() == AttackFrame(old(Attacks()),
                                       AttackInput(dt, inp.lightDown, inp.heavyDown,
                                                   HitsHealth(enemies, lightAttackRange),
                                                   HitsHealth(enemies, heavyAttackRange), inp.heavyAnimDone),
                                       heavyAttackCooldown, false)
    {
      Locomotion(inp, dt);
      AttackPhase(inp, enemies);
    }

    /** The part of `Update` from `HandleAttack` on: the attack, then
        `UpdateAnimator`. The movement state and the fields of `Valid` are
        left as they are (the frame says so too; the clause hands it to
        `Update` directly). */
    method AttackPhase(inp: FrameInput, enemies: seq<EnemyTarget>)
      requires AllValid(enemies)
      modifies this`animLightAttack, this`lightResets, this`heavyAttackActive, this`animHeavyAttack,
               this`heavyAttackCooldownTimer, this`animGrounded, Healths(enemies)
      ensures AllValid(enemies)
      ensures animLightAttack == (old(animLightAttack) || inp.lightDown)
      ensures lightResets == old(lightResets) + (if inp.lightDown then [lightAttackDuration] else [])
      ensures var fired := inp.heavyDown && old(heavyAttackCooldownTimer) <= 0.0 && !old(heavyAttackActive);
              && heavyAttackCooldownTimer == (if fired then heavyAttackCooldown else old(heavyAttackCooldownTimer))
              && heavyAttackActive == (if fired then !inp.heavyAnimDone else old(heavyAttackActive))
              && animHeavyAttack == (if fired then !inp.heavyAnimDone else old(animHeavyAttack))
      ensures var fired := inp.heavyDown && old(heavyAttackCooldownTimer) <= 0.0 && !old(heavyAttackActive);
              forall h :: h in Healths(enemies) ==>
                h.State() == HitIf(HitIf(old(h.State()),
                                         inp.lightDown && Targets(enemies, FirstInRange(enemies, lightAttackRange), h),
                                         lightAttackDamage),
                                   fired && Targets(enemies, FirstInRange(enemies, heavyAttackRange), h),
                                   heavyAttackDamage)
      ensures animGrounded == isGrounded
      ensures unchanged(this`dashCharges, this`dashCooldownTimer, this`isDashing, this`dashTimeLeft, this`vx,
                        this`flipX, this`animDash, this`animWalking, this`vy, this`jumpCount, this`animJumping,
                        this`isGrounded, this`hitCount, this`enabled)
    {
      HandleAttack(inp.lightDown, inp.heavyDown, inp.heavyAnimDone, enemies);
      UpdateAnimator();
    }

    /** The animator's IsGrounded parameter follows `isGrounded`. */
    method UpdateAnimator()
      modifies this`animGrounded
      ensures animGrounded == isGrounded
    {
      animGrounded := isGrounded;
    }

    /** The part of `Update` before `HandleAttack`: the timers, `HandleDash`,
        `HandleMovement` unless a dash is in progress, and `HandleJump`. */
    method Locomotion(inp: FrameInput, dt: real)
      requires Valid()
      modifies this`heavyAttackCooldownTimer, this`dashCharges, this`dashCooldownTimer, this`animDash,
               this`isDashing, this`vx, this`dashTimeLeft, this`flipX, this`animWalking, this`vy,
               this`animJumping, this`jumpCount
      ensures Valid()
      ensures Pool() == PoolFrame(old(Pool()), dt, maxDashCharges, dashCooldown, inp.dashDown && !old(isDashing))
      ensures var started := DashStarts(old(Pool()), dt, maxDashCharges, inp.dashDown && !old(isDashing));
              && isDashing == (old(isDashing) || started)
              && dashTimeLeft == (if started then dashDuration else old(dashTimeLeft))
              && vx == (if started then DashDirection(inp.horizontal, old(flipX)) * dashSpeed
                        else if old(isDashing) then old(vx)
                        else inp.horizontal * moveSpeed)
              && flipX == (if isDashing then old(flipX) else FlipAfterInput(old(flipX), inp.horizontal))
              && animDash == (old(animDash) || started)
              && animWalking == (if isDashing then old(animWalking) else Abs(inp.horizontal))
      ensures var jumped := inp.jumpDown && old(jumpCount) > 0;
              && vy == (if jumped then jumpForce else old(vy))
              && jumpCount == (if isGrounded then maxJumpCount else old(jumpCount) - (if jumped then 1 else 0))
              && animJumping == (!isGrounded && (old(animJumping) || jumped))
      ensures heavyAttackCooldownTimer == CooldownStep(old(heavyAttackCooldownTimer), dt)
      ensures unchanged(this`lightResets, this`animLightAttack, this`heavyAttackActive, this`animHeavyAttack)
    {
      UpdateTimers(dt);
      Steer(inp.dashDown, inp.horizontal);
      HandleJump(inp.jumpDown);
    }

    /** `HandleDash`, then `HandleMovement` unless a dash is in progress. */
    method Steer(dashDown: bool, horizontal: real)
      requires Valid()
      modifies this`dashCharges, this`dashCooldownTimer, this`animDash, this`isDashing, this`vx,
               this`dashTimeLeft, this`flipX, this`animWalking
      ensures Valid()
      ensures var started := dashDown && !old(isDashing) && old(dashCharges) > 0;
              && Pool() == (if started then Spend(old(Pool()), dashCooldown) else old(Pool()))
              && isDashing == (old(isDashing) || started)
              && dashTimeLeft == (if started then dashDuration else old(dashTimeLeft))
              && vx == (if started then DashDirection(horizontal, old(flipX)) * dashSpeed
                        else if old(isDashing) then old(vx)
                        else horizontal * moveSpeed)
              && flipX == (if isDashing then old(flipX) else FlipAfterInput(old(flipX), horizontal))
              && animDash == (old(animDash) || started)
              && animWalking == (if isDashing then old(animWalking) else Abs(horizontal))
    {
      HandleDash(dashDown, horizontal);
      if !isDashing {
        HandleMovement(horizontal);
      }
    }

    /** The top of `Update`: the heavy-attack cooldown runs down while it is
        positive, and an empty dash pool recharges as `Recharge` says. */
    method UpdateTimers(dt: real)
      requires Valid()
      modifies this`heavyAttackCooldownTimer, this`dashCharges, this`dashCooldownTimer
      ensures Valid()
      ensures heavyAttackCooldownTimer == CooldownStep(old(heavyAttackCooldownTimer), dt)
      ensures Pool() == Recharge(old(Pool()), dt, maxDashCharges)
    {
      if heavyAttackCooldownTimer > 0.0 {
        heavyAttackCooldownTimer := heavyAttackCooldownTimer - dt;
      }
      if dashCharges <= 0 {
        dashCooldownTimer := dashCooldownTimer - dt;
        if dashCooldownTimer <= 0.0 {
          dashCharges := maxDashCharges;
        }
      }
    }

    /** Horizontal velocity is the input times `moveSpeed`; the facing only
        changes on a non-zero input. */
    method HandleMovement(input: real)
      modifies this`vx, this`flipX, this`animWalking
      ensures vx == input * moveSpeed
      ensures flipX == FlipAfterInput(old(flipX), input)
      ensures animWalking == Abs(input)
    {
      vx := input * moveSpeed;
      if input < 0.0 {
        flipX := true;
      } else if input > 0.0 {
        flipX := false;
      }
      animWalking := Abs(input);
    }

    /** A jump needs a jump left and uses one; on the ground the counter is
        refilled at the end, whatever happened before. */
    method HandleJump(jumpDown: bool)
      requires Valid()
      modifies this`vy, this`animJumping, this`jumpCount
      ensures Valid()
      ensures var jumped := jumpDown && old(jumpCount) > 0;
              && vy == (if jumped then jumpForce else old(vy))
              && jumpCount == (if isGrounded then maxJumpCount else old(jumpCount) - (if jumped then 1 else 0))
              && animJumping == (!isGrounded && (old(animJumping) || jumped))
    {
      if jumpDown && jumpCount > 0 {
        vy := jumpForce;
        animJumping := true;
        jumpCount := jumpCount - 1;
      }
      if isGrounded {
        jumpCount := maxJumpCount;
        animJumping := false;
      }
    }

    /** The light attack has no gate: every J press hits and schedules its
        own reset. The heavy attack fires only with the cooldown run out and
        the latch clear; it sets the latch, hits, starts the reset poll (whose
        first check happens at once) and then sets the cooldown. */
    method HandleAttack(lightDown: bool, heavyDown: bool, heavyAnimDone: bool, enemies: seq<EnemyTarget>)
      requires AllValid(enemies)
      modifies this`animLightAttack, this`lightResets, this`heavyAttackActive, this`animHeavyAttack,
               this`heavyAttackCooldownTimer, Healths(enemies)
      ensures AllValid(enemies)
      ensures animLightAttack == (old(animLightAttack) || lightDown)
      ensures lightResets == old(lightResets) + (if lightDown then [lightAttackDuration] else [])
      ensures var fired := heavyDown && old(heavyAttackCooldownTimer) <= 0.0 && !old(heavyAttackActive);
              && heavyAttackCooldownTimer == (if fired then heavyAttackCooldown else old(heavyAttackCooldownTimer))
              && heavyAttackActive == (if fired then !heavyAnimDone else old(heavyAttackActive))
              && animHeavyAttack == (if fired then !heavyAnimDone else old(animHeavyAttack))
      ensures var fired := heavyDown && old(heavyAttackCooldownTimer) <= 0.0 && !old(heavyAttackActive);
              forall h :: h in Healths(enemies) ==>
                h.State() == HitIf(HitIf(old(h.State()),
                                         lightDown && Targets(enemies, FirstInRange(enemies, lightAttackRange), h),
                                         lightAttackDamage),
                                   fired && Targets(enemies, FirstInRange(enemies, heavyAttackRange), h),
                                   heavyAttackDamage)
    {
      if lightDown {
        animLightAttack := true;
        var _ := DamageEnemy(lightAttackRange, lightAttackDamage, enemies);
        lightResets := lightResets + [lightAttackDuration];
      }
      if heavyDown && heavyAttackCooldownTimer <= 0.0 && !heavyAttackActive {
        heavyAttackActive := true;
        animHeavyAttack := true;
        var _ := DamageEnemy(heavyAttackRange, heavyAttackDamage, enemies);
        PollHeavyReset(heavyAnimDone);
        heavyAttackCooldownTimer := heavyAttackCooldown;
      }
    }

    /** One check of `ResetHeavyAttack`'s `while (true)` loop: the latch (and
        the HeavyAttack flag) is released only once the animation reports
        that it has finished. */
    method PollHeavyReset(heavyAnimDone: bool)
      modifies this`heavyAttackActive, this`animHeavyAttack
      ensures heavyAnimDone ==> !heavyAttackActive && !animHeavyAttack
      ensures !heavyAnimDone ==> heavyAttackActive == old(heavyAttackActive)
                                 && animHeavyAttack == old(animHeavyAttack)
    {
      if heavyAnimDone {
        animHeavyAttack := false;
        heavyAttackActive := false;
      }
    }

    /** Damages at most one enemy: the first in query order within `range`.
        The scan stops there even if that object has no `EnemyHealth`, and no
        other enemy is touched. */
    method DamageEnemy(range: real, damage: int, enemies: seq<EnemyTarget>) returns (k: Option<nat>)
      requires AllValid(enemies)
      modifies Healths(enemies)
      ensures AllValid(enemies)
      ensures k == FirstInRange(enemies, range)
      ensures forall h :: h in Healths(enemies) ==>
                h.State() == HitIf(old(h.State()), Targets(enemies, k, h), damage)
    {
      k := FindTarget(enemies, range);
      if k.Some? && enemies[k.value].health != null {
        enemies[k.value].health.TakeDamage(damage);
      }
    }

    /** A dash starts only on the key, when not already dashing and with a
        charge left; it spends exactly one charge (arming the recharge timer
        when that empties the pool), and starts `PerformDash` at once. */
    method HandleDash(dashDown: bool, horizontal: real)
      requires Valid()
      modifies this`dashCharges, this`dashCooldownTimer, this`animDash, this`isDashing, this`vx, this`dashTimeLeft
      ensures Valid()
      ensures var started := dashDown && !old(isDashing) && old(dashCharges) > 0;
              && Pool() == (if started then Spend(old(Pool()), dashCooldown) else old(Pool()))
              && isDashing == (old(isDashing) || started)
              && animDash == (old(animDash) || started)
              && vx == (if started then DashDirection(horizontal, flipX) * dashSpeed else old(vx))
              && dashTimeLeft == (if started then dashDuration else old(dashTimeLeft))
    {
      if dashDown && !isDashing && dashCharges > 0 {
        dashCharges := dashCharges - 1;
        if dashCharges <= 0 {
          dashCooldownTimer := dashCooldown;
        }
        animDash := true;
        isDashing := true;
        vx := DashDirection(horizontal, flipX) * dashSpeed;
        dashTimeLeft := dashDuration;
      }
    }

    /** The dash and heavy-attack coroutines' share of a frame in which `dt`
        seconds passed: the dash ends (velocity zeroed) once `dashDuration`
        is over, and the heavy reset poll releases the latch when the
        animation has finished. The light-attack resets advance in
        `ExpireLightResets`. All of this keeps running after `Die`, because
        disabling a component does not stop its coroutines. */
    method Tick(dt: real, heavyAnimDone: bool)
      requires Valid()
      modifies this`isDashing, this`animDash, this`vx, this`dashTimeLeft, this`heavyAttackActive,
               this`animHeavyAttack
      ensures Valid()
      ensures var ending := old(isDashing) && old(dashTimeLeft) - dt <= 0.0;
              && isDashing == (old(isDashing) && !ending)
              && (ending ==> vx == 0.0 && !animDash)
              && (!ending ==> vx == old(vx) && animDash == old(animDash))
              && (old(isDashing) ==> dashTimeLeft == old(dashTimeLeft) - dt)
              && (!old(isDashing) ==> dashTimeLeft == old(dashTimeLeft))
      ensures heavyAttackActive == (old(heavyAttackActive) && !heavyAnimDone)
      ensures animHeavyAttack == (if old(heavyAttackActive) && heavyAnimDone then false else old(animHeavyAttack))
      ensures Attacks() == PollStep(old(Attacks()), heavyAnimDone)
    {
      if isDashing {
        FinishDash(dt);
      }
      if heavyAttackActive {
        PollHeavyReset(heavyAnimDone);
      }
    }

    /** The rest of `PerformDash` once its `dashDuration` wait has run out:
        the dash ends and the horizontal velocity is zeroed. */
    method FinishDash(dt: real)
      modifies this`isDashing, this`animDash, this`vx, this`dashTimeLeft
      ensures dashTimeLeft == old(dashTimeLeft) - dt
      ensures isDashing == (old(isDashing) && dashTimeLeft > 0.0)
      ensures dashTimeLeft <= 0.0 ==> vx == 0.0 && !animDash
      ensures dashTimeLeft > 0.0 ==> vx == old(vx) && animDash == old(animDash)
    {
      dashTimeLeft := dashTimeLeft - dt;
      if dashTimeLeft <= 0.0 {
        isDashing := false;
        animDash := false;
        vx := 0.0;
      }
    }

    /** `dt` seconds pass for the `ResetAttack` waits: each one that runs out
        clears the LightAttack flag. */
    method ExpireLightResets(dt: real)
      modifies this`animLightAttack, this`lightResets
      ensures lightResets == StillPending(Elapse(old(lightResets), dt))
      ensures animLightAttack == (old(animLightAttack) && !AnyDue(Elapse(old(lightResets), dt)))
    {
      var elapsed := Elapse(lightResets, dt);
      if AnyDue(elapsed) {
        animLightAttack := false;
      }
      lightResets := StillPending(elapsed);
    }

    /** Contact with a ground-layer collider: grounded, jumps refilled. */
    method OnCollisionEnter2D(isGroundLayer: bool)
      requires Valid()
      modifies this`isGrounded, this`jumpCount
      ensures Valid()
      ensures isGroundLayer ==> isGrounded && jumpCount == maxJumpCount
      ensures !isGroundLayer ==> isGrounded == old(isGrounded) && jumpCount == old(jumpCount)
    {
      if isGroundLayer {
        isGrounded := true;
        jumpCount := maxJumpCount;
      }
    }

    /** Leaving any ground-layer collider clears the grounded flag. */
    method OnCollisionExit2D(isGroundLayer: bool)
      requires Valid()
      modifies this`isGrounded
      ensures Valid()
      ensures isGroundLayer ==> !isGrounded
      ensures !isGroundLayer ==> isGrounded == old(isGrounded)
    {
      if isGroundLayer {
        isGrounded := false;
      }
    }

    /** Adds exactly one hit and calls `Die` iff the count has reached the
        limit; there is no dead guard, so every hit past the limit calls `Die`
        again. */
    method TakeHit()
      requires Valid()
      modifies this`hitCount, this`dieTriggers, this`vx, this`vy, this`enabled
      ensures Valid()
      ensures hitCount == old(hitCount) + 1
      ensures hitCount >= hitLimit ==> dieTriggers == old(dieTriggers) + 1 && vx == 0.0 && vy == 0.0 && !enabled
      ensures hitCount < hitLimit ==> dieTriggers == old(dieTriggers) && vx == old(vx) && vy == old(vy)
                                      && enabled == old(enabled)
    {
      hitCount := hitCount + 1;
      if hitCount >= hitLimit {
        Die();
      }
    }

    /** The "Die" trigger, velocity zeroed, component disabled. */
    method Die()
      modifies this`dieTriggers, this`vx, this`vy, this`enabled
      ensures dieTriggers == old(dieTriggers) + 1 && vx == 0.0 && vy == 0.0 && !enabled
    {
      dieTriggers := dieTriggers + 1;
      vx, vy := 0.0, 0.0;
      enabled := false;
    }
  }
}
