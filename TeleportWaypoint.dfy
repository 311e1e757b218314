/** The `TeleportWaypoint` component (Assets/Scripts/teleport_waypoint.cs):
    four one-way waypoint pairs (1 to 2, 3 to 4, 5 to 6, 7 to 8). Standing
    close enough to a pair's source moves the player to its destination,
    switches which of two objects is shown and blocks teleporting until a
    delayed reset. */
module TeleportWaypoint {
  import opened GameCommon

  /** The number of waypoint tags the component looks up. */
  const WaypointCount: nat := 8

  /** `Vector2.Distance(p, q) < radius`, without the square root. */
  predicate Near(p: Vec2, q: Vec2, radius: real)
  {
    radius > 0.0 && SqDist(p, q) < radius * radius
  }

  /** A source and a destination waypoint; `None` when the tag was not found. */
  datatype Pair = Pair(source: Option<Vec2>, destination: Option<Vec2>)

  /** The four pairs `Update` checks, in order. */
  function Pairs(w: seq<Option<Vec2>>): (ps: seq<Pair>)
    requires |w| == WaypointCount
    ensures |ps| == 4
    ensures forall k :: 0 <= k < 4 ==> ps[k] == Pair(w[2 * k], w[2 * k + 1])
  {
    [Pair(w[0], w[1]), Pair(w[2], w[3]), Pair(w[4], w[5]), Pair(w[6], w[7])]
  }

  /** Whether `CheckTeleport` on `pair` moves a player standing at `pos`: both
      ends must be there and the source strictly within `radius`. */
  predicate Fires(pos: Vec2, pair: Pair, radius: real)
  {
    pair.source.Some? && pair.destination.Some? && Near(pos, pair.source.value, radius)
  }

  /** The player's position and the number of teleports so far in a frame. */
  datatype Tele = Tele(pos: Vec2, hops: nat)

  /** One `CheckTeleport`, which does not look at `canTeleport`. */
  function Visit(s: Tele, pair: Pair, radius: real): Tele
  {
    if Fires(s.pos, pair, radius) then Tele(pair.destination.value, s.hops + 1) else s
  }

  /** The pairs checked one after the other, each from where the previous
      one left the player. */
  function Chain(s: Tele, pairs: seq<Pair>, radius: real): Tele
    decreases |pairs|
  {
    if pairs == [] then s else Chain(Visit(s, pairs[0], radius), pairs[1..], radius)
  }

  lemma ChainOfFour(s: Tele, ps: seq<Pair>, radius: real)
    requires |ps| == 4
    ensures Chain(s, ps, radius)
            == Visit(Visit(Visit(Visit(s, ps[0], radius), ps[1], radius), ps[2], radius), ps[3], radius)
  {
    var s1 := Visit(s, ps[0], radius);
    var s2 := Visit(s1, ps[1], radius);
    var s3 := Visit(s2, ps[2], radius);
    assert Chain(s, ps, radius) == Chain(s1, ps[1..], radius);
    assert ps[1..][0] == ps[1] && ps[1..][1..] == ps[2..];
    assert Chain(s1, ps[1..], radius) == Chain(s2, ps[2..], radius);
    assert ps[2..][0] == ps[2] && ps[2..][1..] == ps[3..];
    assert Chain(s2, ps[2..], radius) == Chain(s3, ps[3..], radius);
    assert ps[3..][0] == ps[3] && ps[3..][1..] == [];
    assert Chain(s3, ps[3..], radius) == Chain(Visit(s3, ps[3], radius), [], radius);
  }

  /** A frame teleports at most once per pair, and the count only grows. */
  lemma {:induction false} HopsBounded(s: Tele, pairs: seq<Pair>, radius: real)
    ensures s.hops <= Chain(s, pairs, radius).hops <= s.hops + |pairs|
    decreases |pairs|
  {
    if pairs != [] {
      HopsBounded(Visit(s, pairs[0], radius), pairs[1..], radius);
    }
  }

  /** Nobody moves unless some pair fires from the starting position, and
      then the player does move: the position only changes through a
      teleport. */
  lemma {:induction false} NoHopIffNoSourceNear(s: Tele, pairs: seq<Pair>, radius: real)
    ensures Chain(s, pairs, radius).hops == s.hops
            <==> forall k :: 0 <= k < |pairs| ==> !Fires(s.pos, pairs[k], radius)
    ensures Chain(s, pairs, radius).hops == s.hops ==> Chain(s, pairs, radius).pos == s.pos
    decreases |pairs|
  {
    if pairs != [] {
      var v := Visit(s, pairs[0], radius);
      NoHopIffNoSourceNear(v, pairs[1..], radius);
      HopsBounded(v, pairs[1..], radius);
      if !Fires(s.pos, pairs[0], radius) {
        forall k | 0 <= k < |pairs[1..]| ensures pairs[1..][k] == pairs[k + 1] { }
        assert (forall k :: 0 <= k < |pairs| ==> !Fires(s.pos, pairs[k], radius))
               <==> (forall k :: 0 <= k < |pairs[1..]| ==> !Fires(s.pos, pairs[1..][k], radius));
      }
    }
  }

  /** After at least one teleport the player stands on the destination of
      one of the pairs. */
  lemma {:induction false} EndsOnADestination(s: Tele, pairs: seq<Pair>, radius: real)
    requires Chain(s, pairs, radius).hops > s.hops
    ensures exists k :: 0 <= k < |pairs| && pairs[k].destination == Some(Chain(s, pairs, radius).pos)
    decreases |pairs|
  {
    var v := Visit(s, pairs[0], radius);
    var end := Chain(s, pairs, radius);
    if Chain(v, pairs[1..], radius).hops > v.hops {
      EndsOnADestination(v, pairs[1..], radius);
      var k :| 0 <= k < |pairs[1..]| && pairs[1..][k].destination == Some(end.pos);
      assert pairs[k + 1].destination == Some(end.pos);
    } else {
      NoHopIffNoSourceNear(v, pairs[1..], radius);
      assert pairs[0].destination == Some(end.pos);
    }
  }

  /** Teleports chain within one frame: with waypoint 2 near waypoint 3 a
      player at waypoint 1 ends the frame on waypoint 4 after two hops (an
      even number, so the two objects end the frame as they began it). */
  lemma ChainedTeleport()
    ensures var w := [Some(Vec2(0.0, 0.0)), Some(Vec2(5.0, 0.0)), Some(Vec2(5.5, 0.0)), Some(Vec2(9.0, 0.0)),
                      None, None, None, None];
            Chain(Tele(Vec2(0.0, 0.0), 0), Pairs(w), 1.0) == Tele(Vec2(9.0, 0.0), 2)
  {
    var w := [Some(Vec2(0.0, 0.0)), Some(Vec2(5.0, 0.0)), Some(Vec2(5.5, 0.0)), Some(Vec2(9.0, 0.0)),
              None, None, None, None];
    ChainOfFour(Tele(Vec2(0.0, 0.0), 0), Pairs(w), 1.0);
  }

  /** `n` copies of `t`. */
  function Repeat(t: real, n: nat): (r: seq<real>)
    ensures |r| == n && forall i :: 0 <= i < n ==> r[i] == t
  {
    if n == 0 then [] else [t] + Repeat(t, n - 1)
  }

  predicate Odd(n: nat)
  {
    n % 2 == 1
  }

  class TeleportWaypoint {
    const detectionRadium: real
    const teleportCooldown: real
    /** Waypoints 1 to 8 as `Start` found them. */
    const waypoints: seq<Option<Vec2>>
    /** Whether `object1` and `object2` are assigned. */
    const hasObject1: bool
    const hasObject2: bool
    /** `object1` and `object2` name the same GameObject; then
        `object1Active` and `object2Active` are that one object's state. */
    const sameObject: bool

    /** `transform.position`. */
    var position: Vec2
    var canTeleport: bool
    var showObject1: bool
    var object1Active: bool
    var object2Active: bool
    /** The `Invoke(ResetTeleport, teleportCooldown)` calls still waiting. */
    var resets: seq<real>

    /** The objects always show `showObject1` (a single object named twice
        ends as `object2` was last set), and a blocked teleporter always has
        a reset on the way. */
    ghost predicate Valid()
      reads this
    {
      && |waypoints| == WaypointCount
      && (sameObject ==> hasObject1 && hasObject2 && object1Active == object2Active)
      && (hasObject1 && !sameObject ==> object1Active == showObject1)
      && (hasObject2 ==> object2Active == !showObject1)
      && (!canTeleport ==> resets != [])
    }

    /** The field initialisers and `Start`; `found` holds what each tag
        lookup returned. */
    constructor (detectionRadium: real, teleportCooldown: real, found: seq<Option<Vec2>>,
                 hasObject1: bool, hasObject2: bool, sameObject: bool, position: Vec2)
      requires |found| == WaypointCount
      requires sameObject ==> hasObject1 && hasObject2
      ensures Valid()
      ensures this.detectionRadium == detectionRadium && this.teleportCooldown == teleportCooldown
      ensures waypoints == found && this.hasObject1 == hasObject1 && this.hasObject2 == hasObject2
      ensures this.sameObject == sameObject
      ensures this.position == position && canTeleport && showObject1 && resets == []
      ensures hasObject1 && !sameObject ==> object1Active
      ensures hasObject2 ==> !object2Active
      ensures sameObject ==> !object1Active
    {
      this.detectionRadium := detectionRadium;
      this.teleportCooldown := teleportCooldown;
      waypoints := found;
      this.hasObject1 := hasObject1;
      this.hasObject2 := hasObject2;
      this.sameObject := sameObject;
      this.position := position;
      canTeleport := true;
      showObject1 := true;
      object1Active := true;
      object2Active := false;
      if sameObject {
        object1Active := object2Active;
      }
      resets := [];
    }

    /** One frame: nothing while blocked; otherwise the four pairs are
        checked in order as `Chain` says, each teleport toggling the objects
        and scheduling its own reset. */
    method Update()
      requires Valid()
      modifies this
      ensures Valid()
      ensures !old(canTeleport) ==> unchanged(this)
      ensures old(canTeleport) ==>
                var end := Chain(Tele(old(position), 0), Pairs(waypoints), detectionRadium);
                && position == end.pos
                && canTeleport == (end.hops == 0)
                && showObject1 == (old(showObject1) != Odd(end.hops))
                && resets == old(resets) + Repeat(teleportCooldown, end.hops)
    {
      if !canTeleport {
        return;
      }
      ghost var ps := Pairs(waypoints);
      ghost var s0 := Tele(position, 0);
      ghost var show0, resets0 := showObject1, resets;
      ChainOfFour(s0, ps, detectionRadium);
      CheckTeleport(waypoints[0], waypoints[1], s0, show0, resets0);
      ghost var s1 := Visit(s0, ps[0], detectionRadium);
      CheckTeleport(waypoints[2], waypoints[3], s1, show0, resets0);
      ghost var s2 := Visit(s1, ps[1], detectionRadium);
      CheckTeleport(waypoints[4], waypoints[5], s2, show0, resets0);
      ghost var s3 := Visit(s2, ps[2], detectionRadium);
      CheckTeleport(waypoints[6], waypoints[7], s3, show0, resets0);
    }

    /** One pair: skipped when an end is missing; otherwise a teleport when
        the player is strictly within `detectionRadium` of the source. The
        ghost parameters describe the frame so far: `s` the position and the
        teleports made, `show0` and `resets0` the state before the first. */
    method CheckTeleport(source: Option<Vec2>, destination: Option<Vec2>,
                         ghost s: Tele, ghost show0: bool, ghost resets0: seq<real>)
      requires Valid() && s.pos == position
      requires canTeleport == (s.hops == 0)
      requires showObject1 == (show0 != Odd(s.hops))
      requires resets == resets0 + Repeat(teleportCooldown, s.hops)
      modifies this`position, this`canTeleport, this`showObject1, this`object1Active, this`object2Active,
               this`resets
      ensures Valid()
      ensures var v := Visit(s, Pair(source, destination), detectionRadium);
              && position == v.pos && canTeleport == (v.hops == 0)
              && showObject1 == (show0 != Odd(v.hops))
              && resets == resets0 + Repeat(teleportCooldown, v.hops)
    {
      if source.None? || destination.None? {
        return;
      }
      if Near(position, source.value, detectionRadium) {
        TeleportPlayer(destination.value);
        assert resets == resets0 + Repeat(teleportCooldown, s.hops + 1);
      }
    }

    /** Blocks teleporting, moves the player, toggles the objects and
        schedules `ResetTeleport`. */
    method TeleportPlayer(destination: Vec2)
      requires Valid()
      modifies this`position, this`canTeleport, this`showObject1, this`object1Active, this`object2Active,
               this`resets
      ensures Valid()
      ensures !canTeleport && position == destination && showObject1 == !old(showObject1)
      ensures hasObject1 && !sameObject ==> object1Active == showObject1
      ensures hasObject2 ==> object2Active == !showObject1
      ensures sameObject ==> object1Active == object2Active
      ensures !hasObject1 ==> object1Active == old(object1Active)
      ensures !hasObject2 ==> object2Active == old(object2Active)
      ensures resets == old(resets) + [teleportCooldown]
    {
      canTeleport := false;
      position := destination;
      showObject1 := !showObject1;
      if hasObject1 {
        object1Active := showObject1;
      }
      if hasObject2 {
        object2Active := !showObject1;
        if sameObject {
          object1Active := object2Active;
        }
      }
      resets := resets + [teleportCooldown];
    }

    /** `dt` seconds pass for the pending resets; teleporting is allowed
        again exactly when one of them is due, and nothing else changes. */
    method Tick(dt: real)
      requires Valid()
      modifies this`canTeleport, this`resets
      ensures Valid()
      ensures resets == StillPending(Elapse(old(resets), dt))
      ensures canTeleport == (old(canTeleport) || AnyDue(Elapse(old(resets), dt)))
    {
      var elapsed := Elapse(resets, dt);
      if AnyDue(elapsed) {
        ResetTeleport();
      } else if resets != [] {
        assert elapsed[0] in StillPending(elapsed);
      }
      resets := StillPending(elapsed);
    }

    method ResetTeleport()
      modifies this`canTeleport
      ensures canTeleport
    {
      canTeleport := true;
    }
  }
}
