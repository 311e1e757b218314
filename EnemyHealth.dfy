/** The `EnemyHealth` component (Assets/Scripts/EnemyHealth.cs): an enemy
    that counts the damage it takes, shows a short "Hurt" animation after each
    hit and destroys itself once the count reaches two. */
module EnemyHealth {
  import opened GameCommon

  /** How long the "Hurt" animation flag stays on after a hit (`NoHurt`). */
  const HurtDuration: real := 0.5

  /** An enemy's state as a value: the count, the "Hurt" flag, the pending
      `NoHurt` waits and whether it has been destroyed. */
  datatype HealthState = HealthState(hitCount: int, hurt: bool, hurtResets: seq<real>, destroyed: bool)

  /** The intended effect of one `TakeDamage(damage)` on an enemy that dies
      at two hits. */
  function Damaged(e: HealthState, damage: int): HealthState
  {
    HealthState(e.hitCount + damage, true, e.hurtResets + [HurtDuration],
           e.destroyed || e.hitCount + damage >= 2)
  }

  /** A run of hits on a fresh enemy, one `Damaged` per hit. */
  function DamagedBy(e: HealthState, ds: seq<int>): HealthState
    decreases |ds|
  {
    if ds == [] then e else DamagedBy(Damaged(e, ds[0]), ds[1..])
  }

  /** The value-level rule agrees with the hit counting: after any run of
      hits on a live enemy the count is `HitsAfter`, it has been destroyed
      iff `DiesDuring` with limit 2, and one `NoHurt` wait is pending per
      hit. */
  lemma {:induction false} DamagedByCounts(e: HealthState, ds: seq<int>)
    requires !e.destroyed
    ensures DamagedBy(e, ds).hitCount == HitsAfter(e.hitCount, ds)
    ensures DamagedBy(e, ds).destroyed == DiesDuring(e.hitCount, ds, 2)
    ensures |DamagedBy(e, ds).hurtResets| == |e.hurtResets| + |ds|
    decreases |ds|
  {
    if ds != [] {
      var e1 := Damaged(e, ds[0]);
      if e1.destroyed {
        DestroyedStaysDestroyed(e1, ds[1..]);
        HitsOnlyAdd(e1, ds[1..]);
        assert DiesDuring(e.hitCount, ds, 2);
      } else {
        DamagedByCounts(e1, ds[1..]);
      }
    }
  }

  lemma {:induction false} DestroyedStaysDestroyed(e: HealthState, ds: seq<int>)
    requires e.destroyed
    ensures DamagedBy(e, ds).destroyed
    decreases |ds|
  {
    if ds != [] {
      DestroyedStaysDestroyed(Damaged(e, ds[0]), ds[1..]);
    }
  }

  lemma {:induction false} HitsOnlyAdd(e: HealthState, ds: seq<int>)
    ensures DamagedBy(e, ds).hitCount == HitsAfter(e.hitCount, ds)
    ensures |DamagedBy(e, ds).hurtResets| == |e.hurtResets| + |ds|
    decreases |ds|
  {
    if ds != [] {
      HitsOnlyAdd(Damaged(e, ds[0]), ds[1..]);
    }
  }

  class EnemyHealth {
    /** The enemy dies at two hits. */
    const hitLimit: int := 2

    var hitCount: int
    /** The animator's "Hurt" flag. */
    var hurt: bool
    /** The `NoHurt` coroutines still waiting, as the time each has left. */
    var hurtResets: seq<real>
    /** `Destroy(gameObject)` has been called: the enemy leaves the scene at
        the end of the frame and its coroutines stop. */
    var destroyed: bool

    /** Reaching the limit always destroys the enemy. */
    ghost predicate Valid()
      reads this
    {
      hitCount >= hitLimit ==> destroyed
    }

    function State(): HealthState
      reads this
    {
      HealthState(hitCount, hurt, hurtResets, destroyed)
    }

    constructor ()
      ensures Valid()
      ensures hitCount == 0 && !hurt && hurtResets == [] && !destroyed
    {
      hitCount := 0;
      hurt := false;
      hurtResets := [];
      destroyed := false;
    }

    /** One hit of `damage`: the "Hurt" flag goes on and a `NoHurt` wait of
        half a second is scheduled, the count grows by exactly `damage`, and
        `Die` runs on every call that leaves the count at the limit or above
        (there is no dead guard). This is the behaviour the script is written
        for; as written it throws before counting, see
        `TakeDamageAsWritten`. */
    method TakeDamage(damage: int)
      requires Valid()
      modifies this
      ensures Valid()
      ensures hitCount == old(hitCount) + damage
      ensures hurt
      ensures hurtResets == old(hurtResets) + [HurtDuration]
      ensures destroyed == (old(destroyed) || hitCount >= hitLimit)
      ensures State() == Damaged(old(State()), damage)
    {
      hurt := true;
      hurtResets := hurtResets + [HurtDuration];
      hitCount := hitCount + damage;
      if hitCount >= hitLimit {
        Die();
      }
    }

    method Die()
      modifies this
      ensures destroyed
      ensures hitCount == old(hitCount) && hurt == old(hurt) && hurtResets == old(hurtResets)
    {
      destroyed := true;
    }

    /** `dt` seconds pass for the `NoHurt` waits: each one that is over
        clears the "Hurt" flag. A destroyed enemy's waits are dropped
        unfired. Nothing else changes. */
    method Tick(dt: real)
      requires Valid()
      modifies this
      ensures Valid()
      ensures hitCount == old(hitCount) && destroyed == old(destroyed)
      ensures old(destroyed) ==> hurtResets == [] && hurt == old(hurt)
      ensures !old(destroyed) ==>
                hurtResets == StillPending(Elapse(old(hurtResets), dt))
                && hurt == (old(hurt) && !AnyDue(Elapse(old(hurtResets), dt)))
    {
      if destroyed {
        hurtResets := [];
      } else {
        var elapsed := Elapse(hurtResets, dt);
        if AnyDue(elapsed) {
          hurt := false;
        }
        hurtResets := StillPending(elapsed);
      }
    }
  }

  // ---------------------------------------------------------------------------
  // The script as written
  // ---------------------------------------------------------------------------

  /** The outcome of one `TakeDamage` call. */
  datatype DamageCall = Counted(hits: int, dies: bool) | Threw

  /** `TakeDamage` exactly as written. The `animator` field is declared but
      never assigned (no `GetComponent<Animator>()`, and a private field is
      not set from the Inspector), so `animator.SetBool` on the first line
      throws before `hitCount += damage` is reached. */
  function TakeDamageAsWritten(hits: int, damage: int, animatorAssigned: bool): DamageCall
  {
    if !animatorAssigned then Threw
    else Counted(hits + damage, hits + damage >= 2)
  }

  /** The hit count after a run of as-written calls, and whether any of
      them reached `Die`; a call that throws changes nothing. */
  function RunAsWritten(hits: int, ds: seq<int>, animatorAssigned: bool): (int, bool)
    decreases |ds|
  {
    if ds == [] then (hits, false)
    else
      match TakeDamageAsWritten(hits, ds[0], animatorAssigned)
      case Threw => RunAsWritten(hits, ds[1..], animatorAssigned)
      case Counted(h, dies) =>
        var (h', d') := RunAsWritten(h, ds[1..], animatorAssigned);
        (h', dies || d')
  }

  /** As written, no sequence of hits ever changes the count or kills the
      enemy. */
  lemma {:induction false} AsWrittenNeverDies(hits: int, ds: seq<int>)
    ensures RunAsWritten(hits, ds, false) == (hits, false)
    decreases |ds|
  {
    if ds != [] {
      AsWrittenNeverDies(hits, ds[1..]);
    }
  }

  /** With the animator assigned the calls count like `HitsAfter` and kill
      like `DiesDuring`. */
  lemma {:induction false} AssignedAnimatorCounts(hits: int, ds: seq<int>)
    ensures RunAsWritten(hits, ds, true) == (HitsAfter(hits, ds), DiesDuring(hits, ds, 2))
    decreases |ds|
  {
    if ds != [] {
      AssignedAnimatorCounts(hits + ds[0], ds[1..]);
    }
  }

  /** The input that shows the difference: two light hits (damage 1) from a
      fresh enemy kill it when the animator is there, and leave it untouched
      as written. */
  lemma TwoLightHitsShowTheDifference()
    ensures RunAsWritten(0, [1, 1], true) == (2, true)
    ensures RunAsWritten(0, [1, 1], false) == (0, false)
  {
    AssignedAnimatorCounts(0, [1, 1]);
    AsWrittenNeverDies(0, [1, 1]);
    assert [1, 1][1..] == [1];
  }

  /** The intended rule in terms of totals: with non-negative damage one
      2-damage hit or two 1-damage hits kill, one 1-damage hit does not. */
  lemma {:induction false} KilledIffTotalReachesTwo(ds: seq<int>)
    requires AllNonNegativeInt(ds)
    ensures DiesDuring(0, ds, 2) <==> (ds != [] && SumInt(ds) >= 2)
    ensures HitsAfter(0, ds) == SumInt(ds)
  {
    DiesIffTotalReachesLimit(0, ds, 2);
    HitsAfterIsTotal(0, ds);
  }
}
