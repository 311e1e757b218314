/** Values and rules shared by several character scripts: positions, the
    distance bands the AI scripts choose their behaviour from, the two facing
    rules, hit counting, and the pending waits that stand for coroutines and
    `Invoke` calls. */
module GameCommon {

  datatype Option<T> = None | Some(value: T)

  /** A position in the plane (the x and y of a Unity transform). */
  datatype Vec2 = Vec2(x: real, y: real)

  /** The square of the Euclidean distance; `Vector2.Distance(a, b) < r` holds
      exactly when `r > 0` and this is below `r * r`. */
  function SqDist(a: Vec2, b: Vec2): real
  {
    (a.x - b.x) * (a.x - b.x) + (a.y - b.y) * (a.y - b.y)
  }

  function Abs(x: real): real
  {
    if x < 0.0 then -x else x
  }

  function SumReal(s: seq<real>): real
  {
    if s == [] then 0.0 else s[0] + SumReal(s[1..])
  }

  function SumInt(s: seq<int>): int
  {
    if s == [] then 0 else s[0] + SumInt(s[1..])
  }

  predicate AllNonNegative(s: seq<real>)
  {
    forall i :: 0 <= i < |s| ==> s[i] >= 0.0
  }

  predicate AllNonNegativeInt(s: seq<int>)
  {
    forall i :: 0 <= i < |s| ==> s[i] >= 0
  }

  // ---------------------------------------------------------------------------
  // Distance bands
  // ---------------------------------------------------------------------------

  /** The three behaviours every AI script picks from, by the distance to the
      player: out of sense range (patrol or idle), sensed but out of attack
      range (chase), within attack range (attack). */
  datatype Band = OutOfSense | ChaseBand | AttackBand

  /** The nested condition `if (d <= senseRange) { if (d > attackRange) chase else
      attack } else patrol/idle` shared by the wolf, the creature and both
      Enemy2 variants. Each band is characterised on its own, so that the
      three conditions are seen to partition the distances. */
  function SelectBand(d: real, senseRange: real, attackRange: real): (b: Band)
    ensures b == OutOfSense <==> d > senseRange
    ensures b == ChaseBand <==> attackRange < d <= senseRange
    ensures b == AttackBand <==> d <= senseRange && d <= attackRange
  {
    if d <= senseRange then
      if d > attackRange then ChaseBand else AttackBand
    else
      OutOfSense
  }

  /** Ranks the bands: idle or patrol, chase, attack. */
  function Aggression(b: Band): nat
  {
    match b
    case OutOfSense => 0
    case ChaseBand => 1
    case AttackBand => 2
  }

  /** Moving closer never makes an AI script less aggressive, provided the
      attack range lies within the sense range. */
  lemma CloserIsNoLessAggressive(d1: real, d2: real, senseRange: real, attackRange: real)
    requires attackRange <= senseRange
    requires d1 <= d2
    ensures Aggression(SelectBand(d1, senseRange, attackRange))
         >= Aggression(SelectBand(d2, senseRange, attackRange))
  {
  }

  // ---------------------------------------------------------------------------
  // Facing rules
  // ---------------------------------------------------------------------------

  /** The wolf's and the creature's rule: `if (dx > 0 && !right) Flip(); else
      if (dx < 0 && right) Flip();` -- face the way the step goes, and keep the
      old facing when the step has no horizontal part. */
  function FaceTravel(right: bool, dx: real): (r: bool)
    ensures dx > 0.0 ==> r
    ensures dx < 0.0 ==> !r
    ensures dx == 0.0 ==> r == right
  {
    if dx > 0.0 && !right then !right
    else if dx < 0.0 && right then !right
    else right
  }

  /** The two Enemy2 scripts compare the signs the other way round
      (`dx < 0 && !right`, `dx > 0 && right`), so "facing right" ends up
      meaning "moving left". */
  function FaceAgainstTravel(right: bool, dx: real): (r: bool)
    ensures dx < 0.0 ==> r
    ensures dx > 0.0 ==> !r
    ensures dx == 0.0 ==> r == right
  {
    if dx < 0.0 && !right then !right
    else if dx > 0.0 && right then !right
    else right
  }

  /** The two rules always disagree on a step that moves horizontally. */
  lemma FacingRulesAreOpposite(right: bool, dx: real)
    requires dx != 0.0
    ensures FaceAgainstTravel(right, dx) == !FaceTravel(right, dx)
  {
  }

  // ---------------------------------------------------------------------------
  // Hit counting (EnemyHealth, PlayerController and WolfController)
  // ---------------------------------------------------------------------------

  /** The hit count after `hitCount += d` for each damage `d` in turn. */
  function HitsAfter(hits: int, ds: seq<int>): int
    decreases |ds|
  {
    if ds == [] then hits else HitsAfter(hits + ds[0], ds[1..])
  }

  /** Whether some call in the sequence ends with `hitCount >= limit`, that
      is, whether `Die` is invoked by one of them. */
  predicate DiesDuring(hits: int, ds: seq<int>, limit: int)
    decreases |ds|
  {
    ds != [] && (hits + ds[0] >= limit || DiesDuring(hits + ds[0], ds[1..], limit))
  }

  /** The hit count is the starting count plus the total damage. */
  lemma {:induction false} HitsAfterIsTotal(hits: int, ds: seq<int>)
    ensures HitsAfter(hits, ds) == hits + SumInt(ds)
    decreases |ds|
  {
    if ds != [] {
      HitsAfterIsTotal(hits + ds[0], ds[1..]);
    }
  }

  /** With non-negative damage the hit count never goes down. */
  lemma {:induction false} HitsNeverDecrease(hits: int, ds: seq<int>)
    requires AllNonNegativeInt(ds)
    ensures HitsAfter(hits, ds) >= hits
    decreases |ds|
  {
    if ds != [] {
      HitsNeverDecrease(hits + ds[0], ds[1..]);
    }
  }

  /** With non-negative damage, `Die` is invoked during a run of calls exactly
      when the total reaches the limit: the order and the split of the damage
      do not matter (one 2-damage hit and two 1-damage hits both kill at 2). */
  lemma {:induction false} DiesIffTotalReachesLimit(hits: int, ds: seq<int>, limit: int)
    requires AllNonNegativeInt(ds)
    ensures DiesDuring(hits, ds, limit) <==> (ds != [] && hits + SumInt(ds) >= limit)
    decreases |ds|
  {
    if ds != [] {
      var rest := ds[1..];
      assert AllNonNegativeInt(rest) by {
        forall i | 0 <= i < |rest| ensures rest[i] >= 0 { assert rest[i] == ds[i + 1]; }
      }
      DiesIffTotalReachesLimit(hits + ds[0], rest, limit);
      if rest != [] {
        SumIntNonNegative(rest);
      }
    }
  }

  lemma {:induction false} SumIntNonNegative(s: seq<int>)
    requires AllNonNegativeInt(s)
    ensures SumInt(s) >= 0
  {
    if s != [] {
      var rest := s[1..];
      assert AllNonNegativeInt(rest) by {
        forall i | 0 <= i < |rest| ensures rest[i] >= 0 { assert rest[i] == s[i + 1]; }
      }
      SumIntNonNegative(rest);
    }
  }

  // ---------------------------------------------------------------------------
  // Pending waits
  // ---------------------------------------------------------------------------

  /** A list of pending `WaitForSeconds` or `Invoke` delays, each as the time
      still to go. `Elapse` lets `dt` seconds pass for all of them. */
  function Elapse(ts: seq<real>, dt: real): (r: seq<real>)
    ensures |r| == |ts|
    ensures forall i :: 0 <= i < |ts| ==> r[i] == ts[i] - dt
  {
    seq(|ts|, i requires 0 <= i < |ts| => ts[i] - dt)
  }

  /** Some wait in the list is over and its continuation runs. */
  predicate AnyDue(ts: seq<real>)
  {
    exists i :: 0 <= i < |ts| && ts[i] <= 0.0
  }

  /** The waits that are not over yet, in their original order; the others
      have fired and are gone. */
  function StillPending(ts: seq<real>): (r: seq<real>)
    ensures |r| <= |ts|
    ensures forall i :: 0 <= i < |r| ==> r[i] > 0.0
    ensures forall i :: 0 <= i < |ts| && ts[i] > 0.0 ==> ts[i] in r
    ensures forall t :: t in r ==> t in ts
  {
    if ts == [] then []
    else if ts[0] > 0.0 then [ts[0]] + StillPending(ts[1..])
    else StillPending(ts[1..])
  }

  /** No wait is lost or duplicated: every wait still to go stays pending,
      as often as it occurs (two equal `Invoke` delays stay two), and every
      wait that is over is gone. */
  lemma {:induction false} PendingWaitsKept(ts: seq<real>)
    ensures forall x :: x > 0.0 ==> multiset(StillPending(ts))[x] == multiset(ts)[x]
    ensures forall x :: x <= 0.0 ==> multiset(StillPending(ts))[x] == 0
    decreases |ts|
  {
    if ts != [] {
      PendingWaitsKept(ts[1..]);
      assert ts == [ts[0]] + ts[1..];
      assert multiset(ts) == multiset([ts[0]]) + multiset(ts[1..]);
      if ts[0] > 0.0 {
        assert multiset(StillPending(ts)) == multiset([ts[0]]) + multiset(StillPending(ts[1..]));
      }
    }
  }

  /** One coroutine blocked in a single `WaitForSeconds`: idle, or waiting
      with the time still to go. */
  datatype Wait = Idle | Waiting(left: real)

  /** `dt` seconds pass; a wait whose time is up resumes its coroutine and
      is idle afterwards. */
  function Advance(w: Wait, dt: real): Wait
  {
    match w
    case Idle => Idle
    case Waiting(left) => if left - dt <= 0.0 then Idle else Waiting(left - dt)
  }

  function RunWait(w: Wait, dts: seq<real>): Wait
    decreases |dts|
  {
    if dts == [] then w else RunWait(Advance(w, dts[0]), dts[1..])
  }

  lemma {:induction false} IdleStaysIdle(dts: seq<real>)
    ensures RunWait(Idle, dts) == Idle
    decreases |dts|
  {
    if dts != [] {
      IdleStaysIdle(dts[1..]);
    }
  }

  /** With non-negative frame times, a wait of `left` seconds has resumed
      after a run of frames exactly when at least one frame has passed and
      their total has reached `left`; until then it has `left` minus the
      total still to go. */
  lemma {:induction false} WaitResumesWhenDue(left: real, dts: seq<real>)
    requires AllNonNegative(dts)
    ensures RunWait(Waiting(left), dts) == Idle <==> (dts != [] && SumReal(dts) >= left)
    ensures RunWait(Waiting(left), dts) != Idle ==> RunWait(Waiting(left), dts) == Waiting(left - SumReal(dts))
    decreases |dts|
  {
    if dts != [] {
      var rest := dts[1..];
      assert AllNonNegative(rest) by {
        forall i | 0 <= i < |rest| ensures rest[i] >= 0.0 { assert rest[i] == dts[i + 1]; }
      }
      SumRealNonNegative(rest);
      if left - dts[0] <= 0.0 {
        IdleStaysIdle(rest);
      } else {
        WaitResumesWhenDue(left - dts[0], rest);
      }
    }
  }

  lemma {:induction false} SumRealNonNegative(s: seq<real>)
    requires AllNonNegative(s)
    ensures SumReal(s) >= 0.0
    decreases |s|
  {
    if s != [] {
      var rest := s[1..];
      assert AllNonNegative(rest) by {
        forall i | 0 <= i < |rest| ensures rest[i] >= 0.0 { assert rest[i] == s[i + 1]; }
      }
      SumRealNonNegative(rest);
    }
  }

  // ---------------------------------------------------------------------------
  // Cooldown timers (the player's heavy attack, the creature's spell)
  // ---------------------------------------------------------------------------

  /** A cooldown that runs down by the frame time while it is positive:
      it is not clamped and may end below zero. */
  function CooldownStep(t: real, dt: real): real
  {
    if t > 0.0 then t - dt else t
  }

  function RunCooldown(t: real, dts: seq<real>): real
    decreases |dts|
  {
    if dts == [] then t else RunCooldown(CooldownStep(t, dts[0]), dts[1..])
  }

  /** The cooldown has run out (timer <= 0) exactly once the elapsed time
      has reached what was left on it, and not before. */
  lemma {:induction false} CooldownExpires(t: real, dts: seq<real>)
    requires AllNonNegative(dts)
    ensures RunCooldown(t, dts) <= 0.0 <==> (t <= 0.0 || SumReal(dts) >= t)
    ensures t > 0.0 && SumReal(dts) < t ==> RunCooldown(t, dts) == t - SumReal(dts)
    decreases |dts|
  {
    if dts != [] {
      var rest := dts[1..];
      assert AllNonNegative(rest) by {
        forall i | 0 <= i < |rest| ensures rest[i] >= 0.0 { assert rest[i] == dts[i + 1]; }
      }
      SumRealNonNegative(rest);
      if t > 0.0 {
        CooldownExpires(t - dts[0], rest);
        if t - dts[0] <= 0.0 {
          StaysExpired(t - dts[0], rest);
        }
      } else {
        StaysExpired(t, rest);
      }
    }
  }

  /** An expired timer is left alone. */
  lemma {:induction false} StaysExpired(t: real, dts: seq<real>)
    requires t <= 0.0
    ensures RunCooldown(t, dts) == t
    decreases |dts|
  {
    if dts != [] {
      StaysExpired(t, dts[1..]);
    }
  }

  // ---------------------------------------------------------------------------
  // The two-wait attack coroutine of Enemy2 and Enemy2Controller
  // ---------------------------------------------------------------------------

  /** Where an `Attack` coroutine stands: not running, in its first wait
      (the wind-up before the hit), or in its second (`attackCooldown`). */
  datatype AttackRun = Ready | WindUp(left: real) | Recover(left: real)

  /** The wind-up ends in this frame: the coroutine resumes, resolves its hit
      and starts the cooldown wait. */
  predicate HitResolves(r: AttackRun, dt: real)
  {
    r.WindUp? && r.left - dt <= 0.0
  }

  /** `dt` seconds pass for the coroutine. A wait that runs out resumes it;
      the cooldown wait starts afresh from `cooldown`, because a new
      `WaitForSeconds` counts from the frame it is created in. */
  function AdvanceRun(r: AttackRun, dt: real, cooldown: real): AttackRun
  {
    match r
    case Ready => Ready
    case WindUp(left) => if left - dt <= 0.0 then Recover(cooldown) else WindUp(left - dt)
    case Recover(left) => if left - dt <= 0.0 then Ready else Recover(left - dt)
  }

  function RunAttack(r: AttackRun, dts: seq<real>, cooldown: real): AttackRun
    decreases |dts|
  {
    if dts == [] then r else RunAttack(AdvanceRun(r, dts[0], cooldown), dts[1..], cooldown)
  }

  /** How many frames of the run resolve a hit. */
  function HitsDuring(r: AttackRun, dts: seq<real>, cooldown: real): nat
    decreases |dts|
  {
    if dts == [] then 0
    else (if HitResolves(r, dts[0]) then 1 else 0) + HitsDuring(AdvanceRun(r, dts[0], cooldown), dts[1..], cooldown)
  }

  /** One attack run resolves exactly one hit once it is past its wind-up,
      and none before: never two. */
  lemma {:induction false} OneHitPerRun(r: AttackRun, dts: seq<real>, cooldown: real)
    ensures r.WindUp? ==>
              HitsDuring(r, dts, cooldown) == (if RunAttack(r, dts, cooldown).WindUp? then 0 else 1)
    ensures !r.WindUp? ==> HitsDuring(r, dts, cooldown) == 0 && !RunAttack(r, dts, cooldown).WindUp?
    decreases |dts|
  {
    if dts != [] {
      OneHitPerRun(AdvanceRun(r, dts[0], cooldown), dts[1..], cooldown);
    }
  }

  /** The latch is held for at least the wind-up plus the cooldown: a run
      that started with a wind-up of `w` is over only once that much time
      has passed (and a run in its cooldown only once what is left of it
      has). */
  lemma {:induction false} LatchHeldForWindUpAndCooldown(r: AttackRun, dts: seq<real>, cooldown: real)
    requires AllNonNegative(dts)
    ensures r.WindUp? && RunAttack(r, dts, cooldown) == Ready ==> SumReal(dts) >= r.left + cooldown
    ensures r.Recover? && RunAttack(r, dts, cooldown) == Ready ==> SumReal(dts) >= r.left
    decreases |dts|
  {
    if dts != [] {
      var rest := dts[1..];
      assert AllNonNegative(rest) by {
        forall i | 0 <= i < |rest| ensures rest[i] >= 0.0 { assert rest[i] == dts[i + 1]; }
      }
      SumRealNonNegative(rest);
      LatchHeldForWindUpAndCooldown(AdvanceRun(r, dts[0], cooldown), rest, cooldown);
      if r.Ready? {
        ReadyStaysReady(rest, cooldown);
      } else if AdvanceRun(r, dts[0], cooldown) == Ready {
        ReadyStaysReady(rest, cooldown);
      }
    }
  }

  lemma {:induction false} ReadyStaysReady(dts: seq<real>, cooldown: real)
    ensures RunAttack(Ready, dts, cooldown) == Ready
    decreases |dts|
  {
    if dts != [] {
      ReadyStaysReady(dts[1..], cooldown);
    }
  }
}
