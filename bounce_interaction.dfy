/**
 * The per-frame interaction layer: pointer mapping, selection shift, the
 * highlight set, the cooldown-throttled impulse on a newly selected object and
 * the spring-damper step that pulls every displaced mesh back to its rest pose.
 *
 * Ray casting is not modelled: each tick receives the intersections as a
 * sequence, nearest first. `Date.now()` and `clock.getDelta()` are parameters,
 * and `Vector3.normalize` is the function parameter `unit`.
 */
module BounceInteraction {
  import opened Options
  import opened Vectors
  import opened SceneGraph

  /**
   * One element of `raycaster.intersectObjects(...)`: the object hit and the
   * hit point. The object is the live scene node, named by its place in the
   * traversal, so its flags and position are read from the scene itself.
   */
  datatype Hit = Hit(index: nat, point: Vec3)

  /** Every hit names a node of a traversal of `count` nodes. */
  predicate HitsIn(hits: seq<Hit>, count: int)
  {
    forall h :: h in hits ==> h.index < count
  }

  /** `state.mouse`: the pointer in normalised device coordinates. */
  datatype Pointer = Pointer(x: real, y: real)

  const DefaultImpulseStrength: real := 1.0
  const DefaultSpringStrength: real := 50.0
  const DefaultDamping: real := 0.95
  /** Milliseconds between two impulses on the same object. */
  const DefaultBounceCooldown: int := 500
  /** How strongly the velocity tilts the rotation away from the rest rotation. */
  const WobbleFactor: real := 0.1

  // ---------------------------------------------------------------------------
  // Pointer mapping (handleMouseMove)

  lemma UnitFraction(a: real, w: real)
    ensures w > 0.0 && 0.0 <= a <= w ==> 0.0 <= a / w <= 1.0
  {
    if w > 0.0 && 0.0 <= a <= w {
      assert a / w * w == a;
    }
  }

  lemma SelfFraction(a: real, w: real)
    requires w != 0.0
    ensures a == w ==> a / w == 1.0
  {
    if a == w {
      assert a / w * w == w * 1.0;
    }
  }

  /**
   * The client coordinates of a mouse event relative to the container's
   * bounding rectangle, mapped so that the rectangle becomes [-1, 1] x [-1, 1]
   * with y pointing up.
   */
  function PointerToNdc(clientX: real, clientY: real, left: real, top: real, width: real, height: real): (m: Pointer)
    requires width != 0.0 && height != 0.0
    ensures clientX == left ==> m.x == -1.0
    ensures clientX == left + width ==> m.x == 1.0
    ensures clientY == top ==> m.y == 1.0
    ensures clientY == top + height ==> m.y == -1.0
    ensures width > 0.0 && left <= clientX <= left + width ==> -1.0 <= m.x <= 1.0
    ensures height > 0.0 && top <= clientY <= top + height ==> -1.0 <= m.y <= 1.0
  {
    UnitFraction(clientX - left, width);
    UnitFraction(clientY - top, height);
    SelfFraction(clientX - left, width);
    SelfFraction(clientY - top, height);
    Pointer((clientX - left) / width * 2.0 - 1.0, -((clientY - top) / height) * 2.0 + 1.0)
  }

  // ---------------------------------------------------------------------------
  // Selection shift, trigger rule and highlight set (updateInteractions)

  /** The new selection: the object of the nearest hit, or none. */
  function FirstHit(hits: seq<Hit>, nodes: seq<Node>): (r: Option<ObjectId>)
    requires HitsIn(hits, |nodes|)
    ensures r.Some? <==> |hits| > 0
    ensures |hits| > 0 ==> r.value == nodes[hits[0].index].id
  {
    if |hits| > 0 then Some(nodes[hits[0].index].id) else None
  }

  /** An impulse is attempted exactly when something is selected that was not selected before. */
  predicate Triggers(previous: Option<ObjectId>, current: Option<ObjectId>)
    ensures current.None? ==> !Triggers(previous, current)
    ensures current.Some? ==> (Triggers(previous, current) <==> previous != current)
  {
    current.Some? && current != previous
  }

  /** No trigger when the selection stays or is cleared; a trigger on every change to an object. */
  lemma TriggerCases(a: ObjectId, b: ObjectId)
    ensures !Triggers(Some(a), Some(a))
    ensures !Triggers(Some(a), None) && !Triggers(None, None)
    ensures Triggers(None, Some(a))
    ensures a != b ==> Triggers(Some(b), Some(a))
  {
  }

  /** `highlightObjects`: the selection when highlighting is on, otherwise nothing. */
  function HighlightSet(selected: Option<ObjectId>, enableHighlight: bool): (r: seq<ObjectId>)
    ensures |r| <= 1
    ensures forall o :: o in r <==> enableHighlight && selected == Some(o)
  {
    if enableHighlight && selected.Some? then [selected.value] else []
  }

  // ---------------------------------------------------------------------------
  // The impulse (applyBounceEffect)

  /** `lastBounceTime.get(id) || 0`: a missing timestamp reads as 0. */
  function LastBounceOf(lastBounce: map<ObjectId, int>, id: ObjectId): (t: int)
    ensures id !in lastBounce ==> t == 0
    ensures id in lastBounce ==> t == lastBounce[id]
  {
    if id in lastBounce then lastBounce[id] else 0
  }

  /** The impulse goes through: the object is not static and its cooldown has elapsed. */
  predicate BounceAllowed(target: Node, lastBounce: map<ObjectId, int>, now: int, cooldown: int)
    ensures BounceAllowed(target, lastBounce, now, cooldown) ==> !target.isStatic
    ensures target.id !in lastBounce ==>
      (BounceAllowed(target, lastBounce, now, cooldown) <==> !target.isStatic && now >= cooldown)
    ensures target.id in lastBounce ==>
      (BounceAllowed(target, lastBounce, now, cooldown) <==> !target.isStatic && now - lastBounce[target.id] >= cooldown)
  {
    !target.isStatic && now - LastBounceOf(lastBounce, target.id) >= cooldown
  }

  /** The unit vector from the hit point toward the object's position, scaled by the strength. */
  function ImpulseVector(target: Node, point: Vec3, strength: real, unit: Vec3 -> Vec3): (r: Vec3)
    ensures strength == 0.0 ==> r == Zero
    ensures strength != 0.0 ==> Scale(r, 1.0 / strength) == unit(Sub(target.position, point))
  {
    var d := unit(Sub(target.position, point));
    UnscaleComponent(d.x, strength);
    UnscaleComponent(d.y, strength);
    UnscaleComponent(d.z, strength);
    Scale(d, strength)
  }

  lemma UnscaleComponent(a: real, k: real)
    ensures k != 0.0 ==> a * k * (1.0 / k) == a
  {
    if k != 0.0 {
      calc {
        a * k * (1.0 / k);
        a * (k * (1.0 / k));
        a * 1.0;
      }
    }
  }

  /** Adds `impulse` to the velocity of `id`, if it has one; every other entry stays. */
  function Kick(velocities: map<ObjectId, Vec3>, id: ObjectId, impulse: Vec3): (r: map<ObjectId, Vec3>)
    ensures r.Keys == velocities.Keys
    ensures forall o :: o in velocities && o != id ==> r[o] == velocities[o]
    ensures id in velocities ==> Sub(r[id], velocities[id]) == impulse
  {
    if id in velocities then velocities[id := Add(velocities[id], impulse)] else velocities
  }

  /** The velocity table after an attempted impulse on `target`. */
  function BouncedVelocities(velocities: map<ObjectId, Vec3>, lastBounce: map<ObjectId, int>, target: Node,
                             point: Vec3, now: int, strength: real, cooldown: int, unit: Vec3 -> Vec3): (r: map<ObjectId, Vec3>)
    ensures r.Keys == velocities.Keys
    ensures forall o :: o in velocities && o != target.id ==> r[o] == velocities[o]
    ensures !BounceAllowed(target, lastBounce, now, cooldown) ==> r == velocities
    ensures BounceAllowed(target, lastBounce, now, cooldown) && target.id in velocities ==>
      Sub(r[target.id], velocities[target.id]) == ImpulseVector(target, point, strength, unit)
  {
    if BounceAllowed(target, lastBounce, now, cooldown)
    then Kick(velocities, target.id, ImpulseVector(target, point, strength, unit))
    else velocities
  }

  /** The timestamp table after an attempted impulse: the time is recorded even without a velocity entry. */
  function BouncedTimes(lastBounce: map<ObjectId, int>, target: Node, now: int, cooldown: int): (r: map<ObjectId, int>)
    ensures forall o :: o != target.id ==> SameEntry(r, lastBounce, o)
    ensures BounceAllowed(target, lastBounce, now, cooldown) ==> target.id in r && r[target.id] == now
    ensures !BounceAllowed(target, lastBounce, now, cooldown) ==> r == lastBounce
  {
    if BounceAllowed(target, lastBounce, now, cooldown) then lastBounce[target.id := now] else lastBounce
  }

  /** `a` and `b` agree at `k`: both lack it, or both hold the same value. */
  predicate SameEntry<V(==)>(a: map<ObjectId, V>, b: map<ObjectId, V>, k: ObjectId)
  {
    (k in a <==> k in b) && (k in a ==> a[k] == b[k])
  }

  /** A static object is never pushed and its timestamp is never written. */
  lemma StaticNeverBounces(velocities: map<ObjectId, Vec3>, lastBounce: map<ObjectId, int>, target: Node,
                           point: Vec3, now: int, strength: real, cooldown: int, unit: Vec3 -> Vec3)
    requires target.isStatic
    ensures BouncedVelocities(velocities, lastBounce, target, point, now, strength, cooldown, unit) == velocities
    ensures BouncedTimes(lastBounce, target, now, cooldown) == lastBounce
  {
  }

  /**
   * A second attempt on the same object within the cooldown after a successful
   * one changes nothing: two attempts give exactly one velocity change.
   */
  lemma SecondBounceWithinCooldownIgnored(velocities: map<ObjectId, Vec3>, lastBounce: map<ObjectId, int>,
                                          first: Node, second: Node, p1: Vec3, p2: Vec3, t1: int, t2: int,
                                          strength: real, cooldown: int, unit: Vec3 -> Vec3)
    requires BounceAllowed(first, lastBounce, t1, cooldown)
    requires second.id == first.id && t2 - t1 < cooldown
    ensures var v1 := BouncedVelocities(velocities, lastBounce, first, p1, t1, strength, cooldown, unit);
            var l1 := BouncedTimes(lastBounce, first, t1, cooldown);
            BouncedVelocities(v1, l1, second, p2, t2, strength, cooldown, unit) == v1
            && BouncedTimes(l1, second, t2, cooldown) == l1
  {
  }

  /** Once the cooldown has elapsed a second impulse stacks on the first (it adds, never replaces). */
  lemma SecondBounceAfterCooldownStacks(velocities: map<ObjectId, Vec3>, lastBounce: map<ObjectId, int>,
                                        first: Node, second: Node, p1: Vec3, p2: Vec3, t1: int, t2: int,
                                        strength: real, cooldown: int, unit: Vec3 -> Vec3)
    requires BounceAllowed(first, lastBounce, t1, cooldown)
    requires second.id == first.id && !second.isStatic && t2 - t1 >= cooldown
    requires first.id in velocities
    ensures var v1 := BouncedVelocities(velocities, lastBounce, first, p1, t1, strength, cooldown, unit);
            var l1 := BouncedTimes(lastBounce, first, t1, cooldown);
            var v2 := BouncedVelocities(v1, l1, second, p2, t2, strength, cooldown, unit);
            v2[first.id] == Add(Add(velocities[first.id], ImpulseVector(first, p1, strength, unit)),
                                ImpulseVector(second, p2, strength, unit))
            && BouncedTimes(l1, second, t2, cooldown) == lastBounce[first.id := t2]
  {
  }

  // ---------------------------------------------------------------------------
  // The spring-damper step (updatePhysics)

  datatype BodyState = BodyState(position: Vec3, velocity: Vec3, rotation: Vec3)

  /** The rotation wobble: each angle is the rest angle tilted by a velocity component. */
  function Wobble(restRotation: Vec3, velocity: Vec3): (r: Vec3)
    ensures Sub(r, restRotation) == Scale(Vec3(velocity.z, velocity.x, velocity.y), WobbleFactor)
    ensures velocity == Zero ==> r == restRotation
    ensures velocity.y == 0.0 && velocity.z == 0.0 ==> r.x == restRotation.x && r.z == restRotation.z
  {
    Vec3(restRotation.x + velocity.z * WobbleFactor,
         restRotation.y + velocity.x * WobbleFactor,
         restRotation.z + velocity.y * WobbleFactor)
  }

  /**
   * One explicit Euler step of a tracked mesh: move by `velocity * dt`, damp the
   * velocity once (not scaled by `dt`), add the spring pull toward the rest
   * position (scaled by `dt`), and derive the rotation from the new velocity.
   */
  function Integrate(position: Vec3, velocity: Vec3, restPosition: Vec3, restRotation: Vec3,
                     spring: real, damping: real, dt: real): (b: BodyState)
    ensures Sub(b.position, position) == Scale(velocity, dt)
    ensures b.rotation == Wobble(restRotation, b.velocity)
    ensures Sub(b.velocity, Scale(velocity, damping)) == Scale(Sub(restPosition, b.position), spring * dt)
    ensures dt == 0.0 ==> b.position == position
  {
    var p := Add(position, Scale(velocity, dt));
    var damped := Scale(velocity, damping);
    var v := Add(damped, Scale(Sub(restPosition, p), spring * dt));
    BodyState(p, v, Wobble(restRotation, v))
  }

  /** At the rest position with zero velocity a mesh stays put and its rotation snaps to the rest rotation. */
  lemma RestIsFixedPoint(restPosition: Vec3, restRotation: Vec3, spring: real, damping: real, dt: real)
    ensures Integrate(restPosition, Zero, restPosition, restRotation, spring, damping, dt)
            == BodyState(restPosition, Zero, restRotation)
  {
    assert Add(restPosition, Scale(Zero, dt)) == restPosition;
    assert Scale(Zero, damping) == Zero;
    assert Add(Zero, Scale(Sub(restPosition, restPosition), spring * dt)) == Zero;
  }

  /**
   * With `dt = 0` the position does not move and the spring adds nothing, yet the
   * velocity is still damped: damping is per tick, not per unit of time.
   */
  lemma DampingIsPerTick(position: Vec3, velocity: Vec3, restPosition: Vec3, restRotation: Vec3,
                         spring: real, damping: real)
    ensures Integrate(position, velocity, restPosition, restRotation, spring, damping, 0.0).position == position
    ensures Integrate(position, velocity, restPosition, restRotation, spring, damping, 0.0).velocity
            == Scale(velocity, damping)
  {
  }

  /** The documented scenario: velocity (-1, 0, 0) at rest, one 16 ms step with the default constants. */
  lemma WorkedExample(restRotation: Vec3)
    ensures var b := Integrate(Zero, Vec3(-1.0, 0.0, 0.0), Zero, restRotation,
                               DefaultSpringStrength, DefaultDamping, 0.016);
            b.position == Vec3(-0.016, 0.0, 0.0)
            && b.velocity == Vec3(-0.9372, 0.0, 0.0)
            && b.rotation == Vec3(restRotation.x, restRotation.y - 0.09372, restRotation.z)
  {
    ExamplePosition();
    ExampleDisplacement();
    ExamplePull();
    ExampleVelocity();
    ExampleWobble(restRotation);
  }

  // The arithmetic of the worked example, one step per lemma: together in one
  // proof obligation the real arithmetic is too costly for the solver.

  lemma ExamplePosition()
    ensures Add(Zero, Scale(Vec3(-1.0, 0.0, 0.0), 0.016)) == Vec3(-0.016, 0.0, 0.0)
  {
  }

  lemma ExampleDisplacement()
    ensures Sub(Zero, Vec3(-0.016, 0.0, 0.0)) == Vec3(0.016, 0.0, 0.0)
  {
  }

  lemma ExamplePull()
    ensures Scale(Vec3(0.016, 0.0, 0.0), DefaultSpringStrength * 0.016) == Vec3(0.0128, 0.0, 0.0)
  {
  }

  lemma ExampleVelocity()
    ensures Add(Scale(Vec3(-1.0, 0.0, 0.0), DefaultDamping), Vec3(0.0128, 0.0, 0.0)) == Vec3(-0.9372, 0.0, 0.0)
  {
  }

  lemma ExampleWobble(restRotation: Vec3)
    ensures Wobble(restRotation, Vec3(-0.9372, 0.0, 0.0))
            == Vec3(restRotation.x, restRotation.y - 0.09372, restRotation.z)
  {
  }

  /** A node the physics step moves: a non-static mesh with a rest pose and a velocity. */
  predicate Tracked(n: Node, restPositions: map<ObjectId, Vec3>, restRotations: map<ObjectId, Vec3>,
                    velocities: map<ObjectId, Vec3>)
    ensures !n.isMesh || n.isStatic ==> !Tracked(n, restPositions, restRotations, velocities)
    ensures n.id !in velocities ==> !Tracked(n, restPositions, restRotations, velocities)
  {
    n.isMesh && !n.isStatic && n.id in restPositions && n.id in restRotations && n.id in velocities
  }

  /** The physics step for one visited node: the node afterwards and the velocity table afterwards. */
  function StepNode(n: Node, restPositions: map<ObjectId, Vec3>, restRotations: map<ObjectId, Vec3>,
                    velocities: map<ObjectId, Vec3>, spring: real, damping: real, dt: real): (r: (Node, map<ObjectId, Vec3>))
    ensures r.1.Keys == velocities.Keys
    ensures forall o :: o in velocities && o != n.id ==> r.1[o] == velocities[o]
    ensures r.0.(position := n.position, rotation := n.rotation) == n
    ensures !Tracked(n, restPositions, restRotations, velocities) ==> r == (n, velocities)
  {
    if Tracked(n, restPositions, restRotations, velocities) then
      var b := Integrate(n.position, velocities[n.id], restPositions[n.id], restRotations[n.id], spring, damping, dt);
      (n.(position := b.position, rotation := b.rotation), velocities[n.id := b.velocity])
    else
      (n, velocities)
  }

  /**
   * `scene.traverse` with the physics step over the first `n` nodes: visit them
   * in order, threading the velocity table.
   */
  function PhysicsUpTo(nodes: seq<Node>, n: nat, restPositions: map<ObjectId, Vec3>,
                       restRotations: map<ObjectId, Vec3>, velocities: map<ObjectId, Vec3>,
                       spring: real, damping: real, dt: real): (r: (seq<Node>, map<ObjectId, Vec3>))
    requires n <= |nodes|
    ensures |r.0| == n
    ensures r.1.Keys == velocities.Keys
    decreases n
  {
    if n == 0 then ([], velocities)
    else
      var before := PhysicsUpTo(nodes, n - 1, restPositions, restRotations, velocities, spring, damping, dt);
      var last := StepNode(nodes[n - 1], restPositions, restRotations, before.1, spring, damping, dt);
      (before.0 + [last.0], last.1)
  }

  /** The whole traversal: the nodes afterwards and the velocity table afterwards. */
  function Physics(nodes: seq<Node>, restPositions: map<ObjectId, Vec3>, restRotations: map<ObjectId, Vec3>,
                   velocities: map<ObjectId, Vec3>, spring: real, damping: real, dt: real): (r: (seq<Node>, map<ObjectId, Vec3>))
    ensures |r.0| == |nodes|
    ensures r.1.Keys == velocities.Keys
  {
    PhysicsUpTo(nodes, |nodes|, restPositions, restRotations, velocities, spring, damping, dt)
  }

  /** The traversal moves and turns nodes but keeps every other field. */
  lemma {:induction false} PhysicsKeepsIdentity(nodes: seq<Node>, n: nat, restPositions: map<ObjectId, Vec3>,
                                                restRotations: map<ObjectId, Vec3>, velocities: map<ObjectId, Vec3>,
                                                spring: real, damping: real, dt: real)
    requires n <= |nodes|
    ensures var r := PhysicsUpTo(nodes, n, restPositions, restRotations, velocities, spring, damping, dt);
            forall i :: 0 <= i < n ==>
              r.0[i].(position := nodes[i].position, rotation := nodes[i].rotation) == nodes[i]
    decreases n
  {
    if n > 0 {
      PhysicsKeepsIdentity(nodes, n - 1, restPositions, restRotations, velocities, spring, damping, dt);
      var before := PhysicsUpTo(nodes, n - 1, restPositions, restRotations, velocities, spring, damping, dt);
      var last := StepNode(nodes[n - 1], restPositions, restRotations, before.1, spring, damping, dt);
      var r := PhysicsUpTo(nodes, n, restPositions, restRotations, velocities, spring, damping, dt);
      assert r.0 == before.0 + [last.0];
      forall i | 0 <= i < n
        ensures r.0[i].(position := nodes[i].position, rotation := nodes[i].rotation) == nodes[i]
      {
        if i < n - 1 {
          assert r.0[i] == before.0[i];
        }
      }
    }
  }

  /** A node that is not tracked at the start of the tick is left exactly as it was. */
  lemma {:induction false} PhysicsSkipsUntracked(nodes: seq<Node>, n: nat, restPositions: map<ObjectId, Vec3>,
                                                 restRotations: map<ObjectId, Vec3>, velocities: map<ObjectId, Vec3>,
                                                 spring: real, damping: real, dt: real)
    requires n <= |nodes|
    ensures var r := PhysicsUpTo(nodes, n, restPositions, restRotations, velocities, spring, damping, dt);
            forall i :: 0 <= i < n && !Tracked(nodes[i], restPositions, restRotations, velocities) ==>
              r.0[i] == nodes[i]
    decreases n
  {
    if n > 0 {
      PhysicsSkipsUntracked(nodes, n - 1, restPositions, restRotations, velocities, spring, damping, dt);
      var before := PhysicsUpTo(nodes, n - 1, restPositions, restRotations, velocities, spring, damping, dt);
      var last := StepNode(nodes[n - 1], restPositions, restRotations, before.1, spring, damping, dt);
      var r := PhysicsUpTo(nodes, n, restPositions, restRotations, velocities, spring, damping, dt);
      assert r.0 == before.0 + [last.0];
      assert Tracked(nodes[n - 1], restPositions, restRotations, before.1)
             == Tracked(nodes[n - 1], restPositions, restRotations, velocities);
      forall i | 0 <= i < n && !Tracked(nodes[i], restPositions, restRotations, velocities)
        ensures r.0[i] == nodes[i]
      {
        if i < n - 1 {
          assert r.0[i] == before.0[i];
        }
      }
    }
  }

  /** Visiting more nodes leaves the results for the nodes already visited in place. */
  lemma {:induction false} PhysicsPrefixStable(nodes: seq<Node>, j: nat, n: nat, restPositions: map<ObjectId, Vec3>,
                                               restRotations: map<ObjectId, Vec3>, velocities: map<ObjectId, Vec3>,
                                               spring: real, damping: real, dt: real)
    requires j <= n <= |nodes|
    ensures PhysicsUpTo(nodes, n, restPositions, restRotations, velocities, spring, damping, dt).0[..j]
            == PhysicsUpTo(nodes, j, restPositions, restRotations, velocities, spring, damping, dt).0
    decreases n
  {
    if j < n {
      PhysicsPrefixStable(nodes, j, n - 1, restPositions, restRotations, velocities, spring, damping, dt);
      var before := PhysicsUpTo(nodes, n - 1, restPositions, restRotations, velocities, spring, damping, dt);
      var r := PhysicsUpTo(nodes, n, restPositions, restRotations, velocities, spring, damping, dt);
      assert r.0[..n - 1] == before.0;
      assert r.0[..j] == before.0[..j];
    }
  }

  /**
   * A velocity entry that none of the nodes `j` to `n` owns is the same after
   * visiting them as before: in particular, with `j = 0`, an entry no visited
   * node owns is untouched by the traversal.
   */
  lemma {:induction false} PhysicsUntouchedEntry(nodes: seq<Node>, j: nat, n: nat, restPositions: map<ObjectId, Vec3>,
                                                 restRotations: map<ObjectId, Vec3>, velocities: map<ObjectId, Vec3>,
                                                 spring: real, damping: real, dt: real, k: ObjectId)
    requires j <= n <= |nodes|
    requires forall i :: j <= i < n ==> nodes[i].id != k
    ensures SameEntry(PhysicsUpTo(nodes, n, restPositions, restRotations, velocities, spring, damping, dt).1,
                      PhysicsUpTo(nodes, j, restPositions, restRotations, velocities, spring, damping, dt).1, k)
    decreases n
  {
    if j < n {
      PhysicsUntouchedEntry(nodes, j, n - 1, restPositions, restRotations, velocities, spring, damping, dt, k);
    }
  }

  /** `StepNode` reads only the visited node's own entry of the velocity table. */
  lemma StepNodeReadsOwnEntry(n: Node, restPositions: map<ObjectId, Vec3>, restRotations: map<ObjectId, Vec3>,
                              a: map<ObjectId, Vec3>, b: map<ObjectId, Vec3>, spring: real, damping: real, dt: real)
    requires SameEntry(a, b, n.id)
    ensures StepNode(n, restPositions, restRotations, a, spring, damping, dt).0
            == StepNode(n, restPositions, restRotations, b, spring, damping, dt).0
    ensures SameEntry(StepNode(n, restPositions, restRotations, a, spring, damping, dt).1,
                      StepNode(n, restPositions, restRotations, b, spring, damping, dt).1, n.id)
  {
  }

  /**
   * The last visited node is stepped from its own velocity of the start of the
   * tick, as long as no earlier node shares its uuid.
   */
  lemma PhysicsLastStep(nodes: seq<Node>, n: nat, restPositions: map<ObjectId, Vec3>,
                        restRotations: map<ObjectId, Vec3>, velocities: map<ObjectId, Vec3>,
                        spring: real, damping: real, dt: real)
    requires 0 < n <= |nodes|
    requires forall i :: 0 <= i < n - 1 ==> nodes[i].id != nodes[n - 1].id
    ensures var r := PhysicsUpTo(nodes, n, restPositions, restRotations, velocities, spring, damping, dt);
            var here := StepNode(nodes[n - 1], restPositions, restRotations, velocities, spring, damping, dt);
            r.0[n - 1] == here.0 && SameEntry(r.1, here.1, nodes[n - 1].id)
  {
    PhysicsUntouchedEntry(nodes, 0, n - 1, restPositions, restRotations, velocities, spring, damping, dt,
                          nodes[n - 1].id);
    var before := PhysicsUpTo(nodes, n - 1, restPositions, restRotations, velocities, spring, damping, dt);
    StepNodeReadsOwnEntry(nodes[n - 1], restPositions, restRotations, before.1, velocities, spring, damping, dt);
  }

  /**
   * With unique uuids each node is stepped from its own velocity of the start
   * of the tick: node i and its velocity entry afterwards are those of
   * `StepNode` on node i alone.
   */
  lemma PhysicsPerNode(nodes: seq<Node>, restPositions: map<ObjectId, Vec3>,
                       restRotations: map<ObjectId, Vec3>, velocities: map<ObjectId, Vec3>,
                       spring: real, damping: real, dt: real, i: int)
    requires UniqueIds(nodes) && 0 <= i < |nodes|
    ensures var r := Physics(nodes, restPositions, restRotations, velocities, spring, damping, dt);
            var here := StepNode(nodes[i], restPositions, restRotations, velocities, spring, damping, dt);
            r.0[i] == here.0 && SameEntry(r.1, here.1, nodes[i].id)
  {
    PhysicsLastStep(nodes, i + 1, restPositions, restRotations, velocities, spring, damping, dt);
    PhysicsPrefixStable(nodes, i + 1, |nodes|, restPositions, restRotations, velocities, spring, damping, dt);
    PhysicsUntouchedEntry(nodes, i + 1, |nodes|, restPositions, restRotations, velocities, spring, damping, dt,
                          nodes[i].id);
    var r := PhysicsUpTo(nodes, |nodes|, restPositions, restRotations, velocities, spring, damping, dt);
    assert r.0[i] == r.0[..i + 1][i];
  }

  /** A static mesh keeps its position, rotation and velocity through the physics step. */
  lemma StaticMeshUntouched(nodes: seq<Node>, restPositions: map<ObjectId, Vec3>,
                            restRotations: map<ObjectId, Vec3>, velocities: map<ObjectId, Vec3>,
                            spring: real, damping: real, dt: real, i: int)
    requires UniqueIds(nodes)
    requires 0 <= i < |nodes| && nodes[i].isStatic
    ensures var r := Physics(nodes, restPositions, restRotations, velocities, spring, damping, dt);
            r.0[i] == nodes[i] && (nodes[i].id in velocities ==> r.1[nodes[i].id] == velocities[nodes[i].id])
  {
    PhysicsPerNode(nodes, restPositions, restRotations, velocities, spring, damping, dt, i);
  }

  /**
   * A whole tick of `updateInteractions` on the scene's nodes: with unique
   * uuids, a node that is static in the scene keeps its timestamp, its
   * velocity and its pose, whatever the ray hits and whatever was selected.
   */
  lemma StaticNodeUnaffectedByTick(nodes: seq<Node>, hits: seq<Hit>, previous: Option<ObjectId>,
                                   velocities: map<ObjectId, Vec3>, lastBounce: map<ObjectId, int>,
                                   restPositions: map<ObjectId, Vec3>, restRotations: map<ObjectId, Vec3>,
                                   now: int, strength: real, cooldown: int, spring: real, damping: real, dt: real,
                                   unit: Vec3 -> Vec3, i: int)
    requires UniqueIds(nodes) && HitsIn(hits, |nodes|)
    requires 0 <= i < |nodes| && nodes[i].isStatic
    ensures var fire := Triggers(previous, FirstHit(hits, nodes));
            var times := if fire then BouncedTimes(lastBounce, nodes[hits[0].index], now, cooldown) else lastBounce;
            var kicked := if fire then BouncedVelocities(velocities, lastBounce, nodes[hits[0].index], hits[0].point,
                                                         now, strength, cooldown, unit)
                          else velocities;
            var r := Physics(nodes, restPositions, restRotations, kicked, spring, damping, dt);
            SameEntry(times, lastBounce, nodes[i].id) && SameEntry(r.1, velocities, nodes[i].id) && r.0[i] == nodes[i]
  {
    var fire := Triggers(previous, FirstHit(hits, nodes));
    var kicked := velocities;
    if fire {
      var h := hits[0];
      assert h in hits;
      var target := nodes[h.index];
      if h.index == i {
        StaticNeverBounces(velocities, lastBounce, target, h.point, now, strength, cooldown, unit);
      } else {
        assert target.id != nodes[i].id;
      }
      kicked := BouncedVelocities(velocities, lastBounce, target, h.point, now, strength, cooldown, unit);
    }
    assert SameEntry(kicked, velocities, nodes[i].id);
    StaticMeshUntouched(nodes, restPositions, restRotations, kicked, spring, damping, dt, i);
  }

  /**
   * `InteractionState` with its tuning constants. The three per-object tables
   * are maps keyed by uuid; the scene is passed to the tick as the array of its
   * nodes in traversal order.
   */
  class InteractionState {
    var mouse: Pointer
    var selected: Option<ObjectId>
    var previousSelected: Option<ObjectId>
    var velocities: map<ObjectId, Vec3>
    var restPositions: map<ObjectId, Vec3>
    var restRotations: map<ObjectId, Vec3>
    var highlight: seq<ObjectId>
    var lastBounceTime: map<ObjectId, int>
    const impulseStrength: real
    const springStrength: real
    const damping: real
    const bounceCooldown: int

    /** `initializeInteraction`: empty tables, nothing selected, the default constants. */
    constructor ()
      ensures mouse == Pointer(0.0, 0.0)
      ensures selected == None && previousSelected == None
      ensures velocities == map[] && restPositions == map[] && restRotations == map[]
      ensures lastBounceTime == map[] && highlight == []
      ensures impulseStrength == DefaultImpulseStrength && springStrength == DefaultSpringStrength
      ensures damping == DefaultDamping && bounceCooldown == DefaultBounceCooldown
    {
      mouse := Pointer(0.0, 0.0);
      selected, previousSelected := None, None;
      velocities, restPositions, restRotations := map[], map[], map[];
      highlight := [];
      lastBounceTime := map[];
      impulseStrength := DefaultImpulseStrength;
      springStrength := DefaultSpringStrength;
      damping := DefaultDamping;
      bounceCooldown := DefaultBounceCooldown;
    }

    /** `handleMouseMove`: store the pointer position in normalised device coordinates. */
    method HandleMouseMove(clientX: real, clientY: real, left: real, top: real, width: real, height: real)
      requires width != 0.0 && height != 0.0
      modifies this`mouse
      ensures mouse == PointerToNdc(clientX, clientY, left, top, width, height)
    {
      mouse := Pointer((clientX - left) / width * 2.0 - 1.0, -((clientY - top) / height) * 2.0 + 1.0);
    }

    /**
     * `applyBounceEffect`. At its only call site `selectedObject` is the object
     * of `hit`, so the object is the scene node `nodes[hit.index]`.
     */
    method ApplyBounceEffect(nodes: array<Node>, hit: Hit, now: int, unit: Vec3 -> Vec3)
      requires hit.index < nodes.Length
      modifies this`velocities, this`lastBounceTime
      ensures old(selected).None? ==> velocities == old(velocities) && lastBounceTime == old(lastBounceTime)
      ensures old(selected).Some? ==>
        velocities == BouncedVelocities(old(velocities), old(lastBounceTime), nodes[hit.index], hit.point, now,
                                        impulseStrength, bounceCooldown, unit)
        && lastBounceTime == BouncedTimes(old(lastBounceTime), nodes[hit.index], now, bounceCooldown)
    {
      if selected.None? {
        return;
      }
      var target := nodes[hit.index];
      if target.isStatic {
        return;
      }
      var last := if target.id in lastBounceTime then lastBounceTime[target.id] else 0;
      if now - last < bounceCooldown {
        return;
      }
      lastBounceTime := lastBounceTime[target.id := now];
      var direction := unit(Sub(target.position, hit.point));
      assert Scale(direction, impulseStrength) == ImpulseVector(target, hit.point, impulseStrength, unit);
      if target.id in velocities {
        var v := velocities[target.id];
        velocities := velocities[target.id := Vec3(v.x + direction.x * impulseStrength,
                                                   v.y + direction.y * impulseStrength,
                                                   v.z + direction.z * impulseStrength)];
        assert velocities[target.id] == Add(v, Scale(direction, impulseStrength));
      }
    }

    /** `updatePhysics`: step every visited node in traversal order. */
    method UpdatePhysics(nodes: array<Node>, dt: real)
      modifies nodes, this`velocities
      ensures (nodes[..], velocities)
              == Physics(old(nodes[..]), restPositions, restRotations, old(velocities), springStrength, damping, dt)
    {
      ghost var start := nodes[..];
      ghost var startVelocities := velocities;
      var i := 0;
      while i < nodes.Length
        invariant 0 <= i <= nodes.Length
        invariant (nodes[..i], velocities)
                  == PhysicsUpTo(start, i, restPositions, restRotations, startVelocities, springStrength, damping, dt)
        invariant nodes[i..] == start[i..]
      {
        assert nodes[i] == start[i];
        StepAt(nodes, i, dt);
        assert nodes[..i + 1] == nodes[..i] + [nodes[i]];
        i := i + 1;
      }
      assert nodes[..nodes.Length] == nodes[..];
    }

    /** The body of the `updatePhysics` traversal callback, for the node at `i`. */
    method StepAt(nodes: array<Node>, i: nat, dt: real)
      requires i < nodes.Length
      modifies nodes, this`velocities
      ensures var stepped := StepNode(old(nodes[i]), restPositions, restRotations, old(velocities),
                                      springStrength, damping, dt);
              nodes[..] == old(nodes[..])[i := stepped.0] && velocities == stepped.1
    {
      var node := nodes[i];
      if node.isMesh && !node.isStatic && node.id in restPositions && node.id in restRotations
         && node.id in velocities {
        var restPosition := restPositions[node.id];
        var restRotation := restRotations[node.id];
        var v := velocities[node.id];
        var p := Add(node.position, Scale(v, dt));
        v := Scale(v, damping);
        var direction := Sub(restPosition, p);
        v := Add(v, Scale(direction, springStrength * dt));
        velocities := velocities[node.id := v];
        nodes[i] := node.(position := p, rotation := Wobble(restRotation, v));
      }
    }

    /** The first half of `updateInteractions`: shift the selection and recompute the highlight set. */
    method ShiftSelection(nodes: array<Node>, hits: seq<Hit>, enableHighlight: bool)
      requires HitsIn(hits, nodes.Length)
      modifies this`previousSelected, this`selected, this`highlight
      ensures previousSelected == old(selected)
      ensures selected == FirstHit(hits, nodes[..])
      ensures highlight == HighlightSet(selected, enableHighlight)
    {
      previousSelected := selected;
      if |hits| > 0 {
        assert hits[0] in hits;
        selected := Some(nodes[hits[0].index].id);
      } else {
        selected := None;
      }
      if enableHighlight {
        highlight := if selected.Some? then [selected.value] else [];
      } else {
        highlight := [];
      }
    }

    /**
     * The bounce attempt of `updateInteractions`: when the selection has just
     * moved to an object, try an impulse on the object under the first hit.
     */
    method BounceNewSelection(nodes: array<Node>, hits: seq<Hit>, now: int, unit: Vec3 -> Vec3)
      requires HitsIn(hits, nodes.Length)
      requires selected.Some? ==> |hits| > 0
      modifies this`velocities, this`lastBounceTime
      ensures lastBounceTime == if Triggers(previousSelected, selected)
                                then BouncedTimes(old(lastBounceTime), nodes[hits[0].index], now, bounceCooldown)
                                else old(lastBounceTime)
      ensures velocities == if Triggers(previousSelected, selected)
                            then BouncedVelocities(old(velocities), old(lastBounceTime), nodes[hits[0].index],
                                                   hits[0].point, now, impulseStrength, bounceCooldown, unit)
                            else old(velocities)
    {
      if selected.Some? && selected != previousSelected {
        assert hits[0] in hits;
        ApplyBounceEffect(nodes, hits[0], now, unit);
      }
    }

    /**
     * `updateInteractions`: shift the selection, recompute the highlight set,
     * attempt an impulse on a newly selected object, then run the physics step.
     */
    method UpdateInteractions(nodes: array<Node>, hits: seq<Hit>, dt: real, now: int, unit: Vec3 -> Vec3,
                              enableHighlight: bool)
      requires HitsIn(hits, nodes.Length)
      modifies this`previousSelected, this`selected, this`highlight, this`velocities, this`lastBounceTime, nodes
      ensures previousSelected == old(selected)
      ensures selected == FirstHit(hits, old(nodes[..]))
      ensures highlight == HighlightSet(selected, enableHighlight)
      ensures lastBounceTime == if Triggers(old(selected), selected)
                                then BouncedTimes(old(lastBounceTime), old(nodes[hits[0].index]), now, bounceCooldown)
                                else old(lastBounceTime)
      ensures var kicked := if Triggers(old(selected), selected)
                            then BouncedVelocities(old(velocities), old(lastBounceTime), old(nodes[hits[0].index]),
                                                   hits[0].point, now, impulseStrength, bounceCooldown, unit)
                            else old(velocities);
              (nodes[..], velocities)
                == Physics(old(nodes[..]), restPositions, restRotations, kicked, springStrength, damping, dt)
      ensures mouse == old(mouse) && restPositions == old(restPositions) && restRotations == old(restRotations)
    {
      ShiftSelection(nodes, hits, enableHighlight);
      BounceNewSelection(nodes, hits, now, unit);
      ghost var (selectedNow, highlightNow, times) := (selected, highlight, lastBounceTime);
      UpdatePhysics(nodes, dt);
      assert selected == selectedNow && highlight == highlightNow && lastBounceTime == times;
    }
  }
}
