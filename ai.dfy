/**
 * The enemy/NPC behaviour system of ai_system.py.
 *
 * The file is in two layers.
 *  - A value-level specification: `Agent` is the controller's state, and
 *    `IdleStep` ... `FleeStep`, `Behave`, `Tick` and `Damaged` say what one
 *    behaviour, one `update` (with the subclass overrides) and one
 *    `take_damage` do to it. `States` runs `Tick` over a sequence of frames.
 *  - The imperative model: `AIController` is a class whose fields the
 *    methods update in place, each method proved against the function of the
 *    specification layer; `AISystem` owns the list of controllers, updates it
 *    over a snapshot while removing DEAD controllers, and answers queries.
 *
 * Ursina's vector maths (`normalized()`, `length()`), `math.cos`/`math.sin`
 * and `random` are not implemented here: the vector maths and trigonometry
 * are the oracle functions of an `Engine` value, and the random draws of one
 * update are a `Draws` value supplied by the caller.
 */
module Ai {
  import opened Seqs

  datatype AIState = Idle | Patrol | Chase | Attack | Flee | Dead

  /** The class a controller was built as: the base `AIController` or one of its five subclasses. */
  datatype Kind = Basic | Goblin | Troll | Merchant | Guard | Sage

  datatype Vec3 = Vec3(x: real, y: real, z: real)

  /**
   * The engine operations the controller consumes.
   *  - `dist(a, b)` is `(a - b).length()`.
   *  - `step(p, t, k)` is `p + (t - p).normalized() * k`: a move of length `k`
   *    from `p` toward `t` (away from `t` when `k` is negative).
   *  - `cosTurns(f)` and `sinTurns(f)` are `math.cos(f * 2 * math.pi)` and
   *    `math.sin(f * 2 * math.pi)`: the angle is given in turns.
   */
  datatype Engine = Engine(
    dist: (Vec3, Vec3) -> real,
    step: (Vec3, Vec3, real) -> Vec3,
    cosTurns: real -> real,
    sinTurns: real -> real)

  /**
   * The values `random` hands out during one update: `roll` for the one
   * `random.random()` call of the Idle and Flee behaviours, and `radii` for
   * the five `random.uniform(5, 15)` calls of patrol-point generation.
   */
  datatype Draws = Draws(roll: real, radii: seq<real>)

  /** What `random.random()` and `random.uniform(5, 15)` guarantee. */
  predicate ValidDraws(d: Draws)
  {
    && 0.0 <= d.roll < 1.0
    && |d.radii| == PatrolSize
    && forall i :: 0 <= i < |d.radii| ==> 5.0 <= d.radii[i] <= 15.0
  }

  /** The per-frame movement scale hard-coded by the source ("60 FPS"). */
  const FrameStep: real := 0.016

  /** The per-update probability of Idle -> Patrol and of Flee -> Idle. */
  const WanderChance: real := 0.01

  /** Number of generated patrol points. */
  const PatrolSize: nat := 5

  /** The per-class constants that each constructor assigns. */
  datatype StatLine = StatLine(
    detectionRange: real, attackRange: real, speed: real,
    health: int, damage: int, attackCooldown: real)

  /** The stat tuple fixed by each class's constructor (base defaults for what a subclass does not set). */
  function Stats(k: Kind): (s: StatLine)
    ensures s.health > 0 && s.attackCooldown > 0.0
    ensures s.attackRange < s.detectionRange
    ensures s.speed == 0.0 <==> k == Merchant || k == Sage
  {
    match k
    case Basic => StatLine(10.0, 2.0, 2.0, 100, 10, 1.0)
    case Goblin => StatLine(8.0, 1.5, 3.0, 30, 10, 0.8)
    case Troll => StatLine(12.0, 2.5, 1.5, 80, 25, 1.5)
    case Merchant => StatLine(5.0, 2.0, 0.0, 100, 10, 1.0)
    case Guard => StatLine(15.0, 2.0, 2.5, 60, 15, 1.0)
    case Sage => StatLine(8.0, 2.0, 0.0, 50, 10, 1.0)
  }

  /** The class `add_ai_controller` builds for a type tag; unknown tags give the base class. */
  function KindOf(tag: string): (k: Kind)
    ensures k == Basic <==> tag !in {"goblin", "troll", "merchant", "guard", "sage"}
    ensures k != Basic ==> tag == TagOf(k)
  {
    if tag == "goblin" then Goblin
    else if tag == "troll" then Troll
    else if tag == "merchant" then Merchant
    else if tag == "guard" then Guard
    else if tag == "sage" then Sage
    else Basic
  }

  /** The `ai_type` each subclass passes to the base constructor. */
  function TagOf(k: Kind): string
    requires k != Basic
  {
    match k
    case Goblin => "goblin"
    case Troll => "troll"
    case Merchant => "merchant"
    case Guard => "guard"
    case Sage => "sage"
  }

  /** The fields of one controller (the entity's position included). */
  datatype Agent = Agent(
    kind: Kind, aiType: string,
    state: AIState,
    health: int, maxHealth: int,
    detectionRange: real, attackRange: real, speed: real, damage: int, attackCooldown: real,
    lastAttackTime: real,
    patrolPoints: seq<Vec3>, patrolIndex: nat,
    position: Vec3)

  function StatsOf(a: Agent): StatLine
  {
    StatLine(a.detectionRange, a.attackRange, a.speed, a.maxHealth, a.damage, a.attackCooldown)
  }

  /** The patrol list is empty with the cursor at 0, or holds five points with the cursor inside. */
  predicate PatrolInv(a: Agent)
  {
    || (a.patrolPoints == [] && a.patrolIndex == 0)
    || (|a.patrolPoints| == PatrolSize && a.patrolIndex < PatrolSize)
  }

  /**
   * What holds of every controller the system builds: the class matches the
   * tag, the stats are the class's and never change, the patrol cursor is in
   * bounds, and a controller with no health left is DEAD.
   */
  predicate AgentInv(a: Agent)
  {
    && KindOf(a.aiType) == a.kind
    && StatsOf(a) == Stats(a.kind)
    && PatrolInv(a)
    && (a.health <= 0 ==> a.state == Dead)
  }

  /** `__init__` of the class chosen for `tag`, with the entity standing at `position`. */
  function Spawn(tag: string, position: Vec3): (a: Agent)
    ensures AgentInv(a)
    ensures a.aiType == tag && a.position == position
    ensures a.state == Idle && a.health == a.maxHealth > 0
    ensures a.patrolPoints == [] && a.lastAttackTime == 0.0
  {
    var k := KindOf(tag);
    var s := Stats(k);
    Agent(k, tag, Idle, s.health, s.health, s.detectionRange, s.attackRange, s.speed,
          s.damage, s.attackCooldown, 0.0, [], 0, position)
  }

  /** The i-th generated patrol point: angle i/5 of a turn, at `radius` from `center`, at the centre's height. */
  function RingPoint(center: Vec3, i: int, radius: real, e: Engine): Vec3
  {
    var turns := i as real / PatrolSize as real;
    Vec3(center.x + radius * e.cosTurns(turns), center.y, center.z + radius * e.sinTurns(turns))
  }

  /** `p` lies at angle i/5 of a turn around `center`, at a radius between 5 and 15. */
  ghost predicate OnRing(p: Vec3, center: Vec3, i: int, e: Engine)
  {
    exists r :: 5.0 <= r <= 15.0 && p == RingPoint(center, i, r, e)
  }

  /** The five points on a ring around `center`, the i-th at a radius between 5 and 15. */
  ghost predicate IsPatrolRing(points: seq<Vec3>, center: Vec3, e: Engine)
  {
    && |points| == PatrolSize
    && forall i :: 0 <= i < |points| ==> OnRing(points[i], center, i, e)
  }

  /** The points `generate_patrol_points` appends, from the radii `random.uniform` drew. */
  function Ring(center: Vec3, radii: seq<real>, e: Engine): (points: seq<Vec3>)
    requires |radii| == PatrolSize
    ensures |points| == PatrolSize
    ensures forall i :: 0 <= i < PatrolSize ==> points[i].y == center.y
  {
    seq(PatrolSize, i requires 0 <= i < PatrolSize => RingPoint(center, i, radii[i], e))
  }

  lemma RingIsPatrolRing(center: Vec3, d: Draws, e: Engine)
    requires ValidDraws(d)
    ensures IsPatrolRing(Ring(center, d.radii, e), center, e)
  {
    var points := Ring(center, d.radii, e);
    forall i | 0 <= i < |points|
      ensures OnRing(points[i], center, i, e)
    {
      assert 5.0 <= d.radii[i] <= 15.0 && points[i] == RingPoint(center, i, d.radii[i], e);
    }
  }

  /** `idle_behavior`: detection starts a chase; otherwise a 1% roll starts a patrol. */
  function IdleStep(a: Agent, distance: real, roll: real): (r: Agent)
    ensures AgentInv(a) && a.health > 0 ==> AgentInv(r)
    ensures r == a.(state := r.state)
    ensures distance <= a.detectionRange ==> r.state == Chase
    ensures distance > a.detectionRange && roll < WanderChance ==> r.state == Patrol
    ensures distance > a.detectionRange && roll >= WanderChance ==> r.state == a.state
  {
    if distance <= a.detectionRange then a.(state := Chase)
    else if roll < WanderChance then a.(state := Patrol)
    else a
  }

  /**
   * `patrol_behavior`: detection interrupts with a chase before any movement;
   * otherwise the points are generated if there are none, the entity steps
   * toward the current point, and the cursor advances on arrival.
   */
  function PatrolStep(a: Agent, distance: real, radii: seq<real>, e: Engine): (r: Agent)
    requires PatrolInv(a) && |radii| == PatrolSize
    ensures PatrolInv(r)
    ensures AgentInv(a) && a.health > 0 ==> AgentInv(r)
    ensures distance <= a.detectionRange ==> r == a.(state := Chase)
    ensures distance > a.detectionRange ==>
      && r.state == a.state
      && r.patrolPoints == (if a.patrolPoints == [] then Ring(a.position, radii, e) else a.patrolPoints)
      && var target := r.patrolPoints[a.patrolIndex];
         && r.position == e.step(a.position, target, a.speed * FrameStep)
         && r.patrolIndex == (if e.dist(target, r.position) < 1.0 then (a.patrolIndex + 1) % PatrolSize else a.patrolIndex)
         && r == a.(patrolPoints := r.patrolPoints, position := r.position, patrolIndex := r.patrolIndex)
  {
    if distance <= a.detectionRange then a.(state := Chase)
    else
      var points := if a.patrolPoints == [] then Ring(a.position, radii, e) else a.patrolPoints;
      var target := points[a.patrolIndex];
      var position := e.step(a.position, target, a.speed * FrameStep);
      var index := if e.dist(target, position) < 1.0 then (a.patrolIndex + 1) % |points| else a.patrolIndex;
      a.(patrolPoints := points, position := position, patrolIndex := index)
  }

  /** `chase_behavior`: attack range is tested first, then loss of the target, else a step toward the player. */
  function ChaseStep(a: Agent, player: Vec3, distance: real, e: Engine): (r: Agent)
    ensures AgentInv(a) && a.health > 0 ==> AgentInv(r)
    ensures distance <= a.attackRange ==> r == a.(state := Attack)
    ensures a.attackRange < distance && distance > a.detectionRange * 1.5 ==> r == a.(state := Patrol)
    ensures a.attackRange < distance <= a.detectionRange * 1.5 ==>
      r == a.(position := e.step(a.position, player, a.speed * FrameStep))
  {
    if distance <= a.attackRange then a.(state := Attack)
    else if distance > a.detectionRange * 1.5 then a.(state := Patrol)
    else a.(position := e.step(a.position, player, a.speed * FrameStep))
  }

  /** The controller after one `update`, and whether `perform_attack` ran during it. */
  datatype Outcome = Outcome(next: Agent, attacked: bool)

  /**
   * `attack_behavior`: out of range goes back to the chase without attacking;
   * in range, an attack fires exactly when `time - last_attack_time >=
   * attack_cooldown`, and stamps `last_attack_time := time`.
   */
  function AttackStep(a: Agent, distance: real, time: real): (r: Outcome)
    ensures AgentInv(a) && a.health > 0 ==> AgentInv(r.next)
    ensures distance > a.attackRange ==> r == Outcome(a.(state := Chase), false)
    ensures distance <= a.attackRange ==>
      && r.attacked == (time - a.lastAttackTime >= a.attackCooldown)
      && r.next == if r.attacked then a.(lastAttackTime := time) else a
  {
    if distance > a.attackRange then Outcome(a.(state := Chase), false)
    else if time - a.lastAttackTime >= a.attackCooldown then Outcome(a.(lastAttackTime := time), true)
    else Outcome(a, false)
  }

  /** `flee_behavior`: a step away from the player, then a 1% roll calms the agent back to Idle. */
  function FleeStep(a: Agent, player: Vec3, roll: real, e: Engine): (r: Agent)
    ensures AgentInv(a) && a.health > 0 ==> AgentInv(r)
    ensures r == a.(position := r.position, state := r.state)
    ensures r.position == e.step(a.position, player, -(a.speed * FrameStep))
    ensures r.state == if roll < WanderChance then Idle else a.state
  {
    var position := e.step(a.position, player, -(a.speed * FrameStep));
    if roll < WanderChance then a.(position := position, state := Idle) else a.(position := position)
  }

  /**
   * `AIController.update`: the base state machine. Under `AgentInv` an agent
   * with no health left is already DEAD, so the first branch (health <= 0)
   * only re-marks it: only `take_damage` lowers health, and it sets DEAD then.
   */
  function Behave(a: Agent, player: Vec3, time: real, d: Draws, e: Engine): (r: Outcome)
    requires AgentInv(a) && ValidDraws(d)
    ensures AgentInv(r.next)
    ensures a.health <= 0 ==> r == Outcome(a.(state := Dead), false)
    ensures r.attacked ==> a.state == Attack && r.next.lastAttackTime == time
    ensures !r.attacked ==> r.next.lastAttackTime == a.lastAttackTime
    ensures r.next.health == a.health && r.next.aiType == a.aiType && r.next.kind == a.kind
    ensures a.patrolPoints != [] ==> r.next.patrolPoints == a.patrolPoints
    ensures a.state == Dead ==> r.next == a
  {
    if a.health <= 0 then Outcome(a.(state := Dead), false)
    else
      var distance := e.dist(player, a.position);
      match a.state
      case Idle => Outcome(IdleStep(a, distance, d.roll), false)
      case Patrol => Outcome(PatrolStep(a, distance, d.radii, e), false)
      case Chase => Outcome(ChaseStep(a, player, distance, e), false)
      case Attack => AttackStep(a, distance, time)
      case Flee => Outcome(FleeStep(a, player, d.roll, e), false)
      case Dead => Outcome(a, false)
  }

  /**
   * When an update calls `perform_attack`: a class running the base state
   * machine, alive, in ATTACK, within attack range, and with the cooldown over.
   */
  predicate Fires(a: Agent, player: Vec3, time: real, e: Engine)
  {
    && a.kind != Merchant && a.kind != Sage
    && a.health > 0 && a.state == Attack
    && e.dist(player, a.position) <= a.attackRange
    && time - a.lastAttackTime >= a.attackCooldown
  }

  /**
   * One `update` call with the subclass overrides: Merchant and Sage only
   * look at the distance, and a Guard's FLEE is turned back into CHASE.
   */
  function Tick(a: Agent, player: Vec3, time: real, d: Draws, e: Engine): (r: Outcome)
    requires AgentInv(a) && ValidDraws(d)
    ensures AgentInv(r.next)
    ensures a.kind == Merchant || a.kind == Sage ==> r == Outcome(a, false)
    ensures a.kind == Guard ==> r.next.state != Flee
    ensures a.health <= 0 ==> !r.attacked && r.next.position == a.position && r.next.state == Dead
    ensures r.attacked <==> Fires(a, player, time, e)
    ensures r.next.lastAttackTime == if r.attacked then time else a.lastAttackTime
    ensures r.next.health == a.health && r.next.aiType == a.aiType
    ensures a.patrolPoints != [] ==> r.next.patrolPoints == a.patrolPoints
    ensures a.state == Dead ==> r.next == a
  {
    if a.kind == Merchant || a.kind == Sage then Outcome(a, false)
    else
      var o := Behave(a, player, time, d, e);
      if a.kind == Guard && o.next.state == Flee then Outcome(o.next.(state := Chase), o.attacked)
      else o
  }

  /** `take_damage`: no floor on health; DEAD at or below zero, else FLEE below 30% of the maximum. */
  function Damaged(a: Agent, amount: int): (r: Agent)
    ensures r == a.(health := a.health - amount, state := r.state)
    ensures r.health <= 0 ==> r.state == Dead
    ensures r.health > 0 && r.health * 10 < a.maxHealth * 3 ==> r.state == Flee
    ensures r.health > 0 && r.health * 10 >= a.maxHealth * 3 ==> r.state == a.state
    ensures AgentInv(a) ==> AgentInv(r)
  {
    var health := a.health - amount;
    if health <= 0 then a.(health := health, state := Dead)
    else if health * 10 < a.maxHealth * 3 then a.(health := health, state := Flee)
    else a.(health := health)
  }

  /** The inputs of one frame for one controller. */
  datatype Frame = Frame(player: Vec3, time: real, draws: Draws)

  predicate ValidFrames(frames: seq<Frame>)
  {
    forall k :: 0 <= k < |frames| ==> ValidDraws(frames[k].draws)
  }

  /** The controller before each frame and after the last one: `Tick` applied frame after frame. */
  function States(a: Agent, frames: seq<Frame>, e: Engine): (s: seq<Agent>)
    requires AgentInv(a) && ValidFrames(frames)
    ensures |s| == |frames| + 1 && s[0] == a
    ensures forall k :: 0 <= k < |s| ==> AgentInv(s[k])
    decreases |frames|
  {
    if frames == [] then [a]
    else [a] + States(Tick(a, frames[0].player, frames[0].time, frames[0].draws, e).next, frames[1..], e)
  }

  /** Whether `perform_attack` ran in frame k of a run. */
  predicate AttackedAt(a: Agent, frames: seq<Frame>, e: Engine, k: nat)
    requires AgentInv(a) && ValidFrames(frames) && k < |frames|
  {
    Fires(States(a, frames, e)[k], frames[k].player, frames[k].time, e)
  }

  lemma {:induction false} StatesStep(a: Agent, frames: seq<Frame>, e: Engine, k: nat)
    requires AgentInv(a) && ValidFrames(frames) && k < |frames|
    ensures States(a, frames, e)[k + 1] ==
      Tick(States(a, frames, e)[k], frames[k].player, frames[k].time, frames[k].draws, e).next
    decreases k
  {
    if k > 0 {
      var next := Tick(a, frames[0].player, frames[0].time, frames[0].draws, e).next;
      StatesStep(next, frames[1..], e, k - 1);
    }
  }

  /** The cooldown never changes during a run. */
  lemma {:induction false} CooldownFixed(a: Agent, frames: seq<Frame>, e: Engine, k: nat)
    requires AgentInv(a) && ValidFrames(frames) && k <= |frames|
    ensures States(a, frames, e)[k].attackCooldown == a.attackCooldown
    decreases k
  {
    if k > 0 {
      CooldownFixed(a, frames, e, k - 1);
      StatesStep(a, frames, e, k - 1);
    }
  }

  /** After an attack at frame i and none since, `last_attack_time` still holds frame i's time. */
  lemma {:induction false} StampKept(a: Agent, frames: seq<Frame>, e: Engine, i: nat, k: nat)
    requires AgentInv(a) && ValidFrames(frames) && i < k <= |frames|
    requires AttackedAt(a, frames, e, i)
    requires forall m :: i < m < k ==> !AttackedAt(a, frames, e, m)
    ensures States(a, frames, e)[k].lastAttackTime == frames[i].time
    decreases k
  {
    StatesStep(a, frames, e, k - 1);
    if k - 1 > i {
      StampKept(a, frames, e, i, k - 1);
      assert !AttackedAt(a, frames, e, k - 1);
    }
  }

  /**
   * Two consecutive attacks of one controller are at least its cooldown
   * apart in the supplied time values.
   */
  lemma AttackSpacing(a: Agent, frames: seq<Frame>, e: Engine, i: nat, j: nat)
    requires AgentInv(a) && ValidFrames(frames) && i < j < |frames|
    requires AttackedAt(a, frames, e, i) && AttackedAt(a, frames, e, j)
    requires forall m :: i < m < j ==> !AttackedAt(a, frames, e, m)
    ensures frames[j].time - frames[i].time >= a.attackCooldown
  {
    StampKept(a, frames, e, i, j);
    CooldownFixed(a, frames, e, j);
  }

  /** A merchant or a sage never changes, however many frames pass. */
  lemma {:induction false} StationaryStaysPut(a: Agent, frames: seq<Frame>, e: Engine)
    requires AgentInv(a) && ValidFrames(frames)
    requires a.kind == Merchant || a.kind == Sage
    ensures forall k :: 0 <= k < |frames| + 1 ==> States(a, frames, e)[k] == a
    decreases |frames|
  {
    if frames != [] {
      StationaryStaysPut(a, frames[1..], e);
    }
  }

  /** Once generated, the patrol points are the same for the rest of the run. */
  lemma {:induction false} PatrolPointsStable(a: Agent, frames: seq<Frame>, e: Engine, k: nat)
    requires AgentInv(a) && ValidFrames(frames) && k <= |frames|
    requires a.patrolPoints != []
    ensures States(a, frames, e)[k].patrolPoints == a.patrolPoints
    decreases k
  {
    if k > 0 {
      PatrolPointsStable(a, frames, e, k - 1);
      StatesStep(a, frames, e, k - 1);
    }
  }

  /** One controller: the fields of `AIController`, with the entity's position held directly. */
  class AIController {
    const kind: Kind
    const aiType: string
    var state: AIState
    var health: int
    const maxHealth: int
    const detectionRange: real
    const attackRange: real
    const speed: real
    const damage: int
    const attackCooldown: real
    var lastAttackTime: real
    var patrolPoints: seq<Vec3>
    var patrolIndex: nat
    var position: Vec3

    function Model(): Agent
      reads this
    {
      Agent(kind, aiType, state, health, maxHealth, detectionRange, attackRange, speed, damage,
            attackCooldown, lastAttackTime, patrolPoints, patrolIndex, position)
    }

    ghost predicate Valid()
      reads this
    {
      AgentInv(Model())
    }

    /** The constructor of the class that `tag` selects. */
    constructor (tag: string, at: Vec3)
      ensures Valid() && Model() == Spawn(tag, at)
    {
      var k := KindOf(tag);
      var s := Stats(k);
      kind, aiType := k, tag;
      state := Idle;
      health, maxHealth := s.health, s.health;
      detectionRange, attackRange, speed := s.detectionRange, s.attackRange, s.speed;
      damage, attackCooldown := s.damage, s.attackCooldown;
      lastAttackTime := 0.0;
      patrolPoints, patrolIndex := [], 0;
      position := at;
    }

    method IdleBehavior(distance: real, roll: real)
      modifies this
      ensures Model() == IdleStep(old(Model()), distance, roll)
    {
      if distance <= detectionRange {
        state := Chase;
      } else if roll < WanderChance {
        state := Patrol;
      }
    }

    /** Appends the five ring points around the current position, one per loop turn. */
    method GeneratePatrolPoints(radii: seq<real>, e: Engine)
      requires |radii| == PatrolSize
      modifies this
      ensures patrolPoints == old(patrolPoints) + Ring(old(position), radii, e)
      ensures Model() == old(Model()).(patrolPoints := patrolPoints)
    {
      var center := position;
      ghost var ring := Ring(center, radii, e);
      for i := 0 to PatrolSize
        invariant patrolPoints == old(patrolPoints) + ring[..i]
        invariant Model() == old(Model()).(patrolPoints := patrolPoints)
      {
        var turns := i as real / PatrolSize as real;
        var x := center.x + radii[i] * e.cosTurns(turns);
        var z := center.z + radii[i] * e.sinTurns(turns);
        assert Vec3(x, center.y, z) == RingPoint(center, i, radii[i], e);
        assert ring[i] == RingPoint(center, i, radii[i], e);
        patrolPoints := patrolPoints + [Vec3(x, center.y, z)];
        assert ring[..i + 1] == ring[..i] + [ring[i]];
      }
      assert ring[..PatrolSize] == ring;
    }

    method PatrolBehavior(distance: real, radii: seq<real>, e: Engine)
      requires PatrolInv(Model()) && |radii| == PatrolSize
      modifies this
      ensures Model() == PatrolStep(old(Model()), distance, radii, e)
    {
      if distance <= detectionRange {
        state := Chase;
        return;
      }
      if patrolPoints == [] {
        GeneratePatrolPoints(radii, e);
      }
      var target := patrolPoints[patrolIndex];
      position := e.step(position, target, speed * FrameStep);
      if e.dist(target, position) < 1.0 {
        patrolIndex := (patrolIndex + 1) % |patrolPoints|;
      }
    }

    method ChaseBehavior(player: Vec3, distance: real, e: Engine)
      modifies this
      ensures Model() == ChaseStep(old(Model()), player, distance, e)
    {
      if distance <= attackRange {
        state := Attack;
      } else if distance > detectionRange * 1.5 {
        state := Patrol;
      } else {
        position := e.step(position, player, speed * FrameStep);
      }
    }

    /** Returns whether `perform_attack` (a hook with no effect here) ran. */
    method AttackBehavior(distance: real, time: real) returns (attacked: bool)
      modifies this
      ensures Outcome(Model(), attacked) == AttackStep(old(Model()), distance, time)
    {
      attacked := false;
      if distance > attackRange {
        state := Chase;
        return;
      }
      if time - lastAttackTime >= attackCooldown {
        attacked := true;
        lastAttackTime := time;
      }
    }

    method FleeBehavior(player: Vec3, roll: real, e: Engine)
      modifies this
      ensures Model() == FleeStep(old(Model()), player, roll, e)
    {
      position := e.step(position, player, -(speed * FrameStep));
      if roll < WanderChance {
        state := Idle;
      }
    }

    /** The base class's `update`. */
    method BaseUpdate(player: Vec3, time: real, d: Draws, e: Engine) returns (attacked: bool)
      requires Valid() && ValidDraws(d)
      modifies this
      ensures Valid()
      ensures Outcome(Model(), attacked) == Behave(old(Model()), player, time, d, e)
    {
      attacked := false;
      if health <= 0 {
        state := Dead;
        return;
      }
      var distance := e.dist(player, position);
      match state
      case Idle => IdleBehavior(distance, d.roll);
      case Patrol => PatrolBehavior(distance, d.radii, e);
      case Chase => ChaseBehavior(player, distance, e);
      case Attack => attacked := AttackBehavior(distance, time);
      case Flee => FleeBehavior(player, d.roll, e);
      case Dead =>
    }

    /** `update` as dispatched on the controller's class. */
    method Update(player: Vec3, time: real, d: Draws, e: Engine) returns (attacked: bool)
      requires Valid() && ValidDraws(d)
      modifies this
      ensures Valid()
      ensures Outcome(Model(), attacked) == Tick(old(Model()), player, time, d, e)
    {
      if kind == Merchant || kind == Sage {
        // The detection check only signals that interaction is possible.
        return false;
      }
      attacked := BaseUpdate(player, time, d, e);
      if kind == Guard && state == Flee {
        state := Chase;
      }
    }

    method TakeDamage(amount: int)
      requires Valid()
      modifies this
      ensures Valid()
      ensures Model() == Damaged(old(Model()), amount)
    {
      health := health - amount;
      if health <= 0 {
        state := Dead;
      } else if health * 10 < maxHealth * 3 {
        state := Flee;
      }
    }
  }

  /** The controllers of `cs` that are not DEAD, in order. */
  function Live(cs: seq<AIController>): (r: seq<AIController>)
    reads cs
    ensures Subseq(r, cs)
    ensures forall i :: 0 <= i < |r| ==> r[i] in cs && r[i].state != Dead
    ensures forall i :: 0 <= i < |cs| && cs[i].state != Dead ==> cs[i] in r
  {
    if cs == [] then []
    else if cs[0].state != Dead then [cs[0]] + Live(cs[1..])
    else Live(cs[1..])
  }

  /** `c` is of one of the `types` and stands within `range` of the player. */
  predicate InRange(c: AIController, types: set<string>, player: Vec3, range: real, e: Engine)
    reads c
  {
    c.aiType in types && e.dist(player, c.position) <= range
  }

  /** The controllers of `cs` whose type is in `types` and that stand within `range` of the player, in order. */
  function Nearby(cs: seq<AIController>, types: set<string>, player: Vec3, range: real, e: Engine): (r: seq<AIController>)
    reads cs
    ensures |r| <= |cs|
  {
    if cs == [] then []
    else
      var rest := Nearby(cs[1..], types, player, range, e);
      if InRange(cs[0], types, player, range, e) then [cs[0]] + rest else rest
  }

  /** `Nearby` keeps, in order, exactly the controllers in range. */
  lemma {:induction false} NearbyIsFilter(cs: seq<AIController>, types: set<string>, player: Vec3, range: real, e: Engine)
    ensures var r := Nearby(cs, types, player, range, e);
      && Subseq(r, cs)
      && (forall i :: 0 <= i < |r| ==> r[i] in cs && InRange(r[i], types, player, range, e))
      && (forall i :: 0 <= i < |cs| && InRange(cs[i], types, player, range, e) ==> cs[i] in r)
    decreases |cs|
  {
    if cs != [] {
      NearbyIsFilter(cs[1..], types, player, range, e);
      var r := Nearby(cs, types, player, range, e);
      var rest := Nearby(cs[1..], types, player, range, e);
      forall i | 0 <= i < |r| ensures r[i] in cs && InRange(r[i], types, player, range, e) {
        if r != rest && i > 0 {
          assert r[i] == rest[i - 1];
        }
      }
      forall i | 0 < i < |cs| && InRange(cs[i], types, player, range, e) ensures cs[i] in r {
        assert cs[i] == cs[1..][i - 1];
      }
    }
  }

  const EnemyTypes: set<string> := {"goblin", "troll"}
  const NpcTypes: set<string> := {"merchant", "guard", "sage"}

  /** The tags the system groups as enemies are exactly those that build a Goblin or a Troll. */
  lemma EnemyTypesAreGoblinsAndTrolls(tag: string)
    ensures tag in EnemyTypes <==> KindOf(tag) == Goblin || KindOf(tag) == Troll
    ensures tag in NpcTypes <==> KindOf(tag) == Merchant || KindOf(tag) == Guard || KindOf(tag) == Sage
  {
  }

  /** `AISystem`: owns the controllers. */
  class AISystem {
    var controllers: seq<AIController>

    ghost predicate Valid()
      reads this, controllers
    {
      && Distinct(controllers)
      && forall k :: 0 <= k < |controllers| ==> controllers[k].Valid()
    }

    constructor ()
      ensures Valid() && controllers == []
    {
      controllers := [];
    }

    /** `add_ai_controller`: builds the class for `tag`, appends it and returns it. */
    method AddController(tag: string, at: Vec3) returns (c: AIController)
      requires Valid()
      modifies this
      ensures Valid() && fresh(c)
      ensures controllers == old(controllers) + [c]
      ensures c.Model() == Spawn(tag, at)
    {
      c := new AIController(tag, at);
      controllers := controllers + [c];
    }

    /**
     * `update_all`: walks a snapshot of the list; a controller that is DEAD
     * when visited is removed, every other one is updated once (so one that
     * dies during the pass is removed on the next pass).
     */
    method UpdateAll(player: Vec3, time: real, draws: seq<Draws>, e: Engine)
      requires Valid()
      requires |draws| == |controllers| && forall k :: 0 <= k < |draws| ==> ValidDraws(draws[k])
      modifies this, controllers
      ensures Valid()
      ensures controllers == Keep(old(controllers), old(Models(controllers)))
      ensures forall k :: 0 <= k < |old(controllers)| ==>
        old(controllers)[k].Model() ==
          if old(controllers[k].state) == Dead then old(controllers[k].Model())
          else Tick(old(controllers[k].Model()), player, time, draws[k], e).next
    {
      var snapshot := controllers;
      ghost var before := Models(snapshot);
      ghost var after := seq(|snapshot|, k requires 0 <= k < |snapshot| => Tick(before[k], player, time, draws[k], e).next);
      forall k | 0 <= k < |snapshot|
        ensures Steps(before[k], after[k], player, time, draws[k], e) && AgentInv(after[k])
      {
        assert snapshot[k].Valid();
      }
      var kept := UpdatePass(snapshot, before, after, player, time, draws, e);
      controllers := kept;
      KeepDistinct(snapshot, before);
      assert forall k :: 0 <= k < |controllers| ==> controllers[k] in snapshot;
    }

    /** `get_nearby_enemies`: goblins and trolls within `range` of the player, DEAD ones included. */
    method GetNearbyEnemies(player: Vec3, range: real, e: Engine) returns (nearby: seq<AIController>)
      ensures nearby == Nearby(controllers, EnemyTypes, player, range, e)
    {
      nearby := Collect(EnemyTypes, player, range, e);
    }

    /** `get_nearby_npcs`: merchants, guards and sages within `range` of the player. */
    method GetNearbyNpcs(player: Vec3, range: real, e: Engine) returns (nearby: seq<AIController>)
      ensures nearby == Nearby(controllers, NpcTypes, player, range, e)
    {
      nearby := Collect(NpcTypes, player, range, e);
    }

    /** The loop shared by both queries. */
    method Collect(types: set<string>, player: Vec3, range: real, e: Engine) returns (nearby: seq<AIController>)
      ensures nearby == Nearby(controllers, types, player, range, e)
    {
      var cs := controllers;
      nearby := [];
      for i := 0 to |cs|
        invariant nearby == Nearby(cs[..i], types, player, range, e)
      {
        var c := cs[i];
        assert cs[..i + 1] == cs[..i] + [c];
        NearbyAppend(cs[..i], c, types, player, range, e);
        if c.aiType in types && e.dist(player, c.position) <= range {
          nearby := nearby + [c];
        }
      }
      assert cs[..|cs|] == cs;
    }
  }

  lemma {:induction false} LiveAppend(cs: seq<AIController>, c: AIController)
    ensures Live(cs + [c]) == Live(cs) + (if c.state != Dead then [c] else [])
    decreases |cs|
  {
    if cs == [] {
      assert cs + [c] == [c];
    } else {
      assert (cs + [c])[1..] == cs[1..] + [c];
      LiveAppend(cs[1..], c);
    }
  }

  lemma {:induction false} NearbyAppend(cs: seq<AIController>, c: AIController, types: set<string>, player: Vec3, range: real, e: Engine)
    ensures Nearby(cs + [c], types, player, range, e) ==
      Nearby(cs, types, player, range, e) + (if InRange(c, types, player, range, e) then [c] else [])
    decreases |cs|
  {
    if cs == [] {
      assert cs + [c] == [c];
    } else {
      assert (cs + [c])[1..] == cs[1..] + [c];
      NearbyAppend(cs[1..], c, types, player, range, e);
    }
  }

  /**
   * The pass of `update_all` over a snapshot `cs` whose models are `before`
   * and would be `after` one update later: each controller not DEAD is
   * updated once and kept, each DEAD one dropped.
   */
  method UpdatePass(cs: seq<AIController>, ghost before: seq<Agent>, ghost after: seq<Agent>,
                    player: Vec3, time: real, draws: seq<Draws>, e: Engine)
    returns (kept: seq<AIController>)
    requires Distinct(cs) && |before| == |after| == |cs| == |draws|
    requires forall k :: 0 <= k < |cs| ==> before[k] == cs[k].Model()
    requires forall k {:trigger Steps(before[k], after[k], player, time, draws[k], e)} ::
      0 <= k < |cs| ==> Steps(before[k], after[k], player, time, draws[k], e)
    requires forall k {:trigger AgentInv(before[k])} :: 0 <= k < |cs| ==> AgentInv(before[k])
    requires forall k {:trigger AgentInv(after[k])} :: 0 <= k < |cs| ==> AgentInv(after[k])
    modifies cs
    ensures kept == Keep(cs, before)
    ensures forall k :: 0 <= k < |cs| ==> cs[k].Model() == if before[k].state == Dead then before[k] else after[k]
    ensures forall k :: 0 <= k < |cs| ==> cs[k].Valid()
  {
    kept := [];
    for i := 0 to |cs|
      invariant kept == Keep(cs[..i], before[..i])
      invariant forall k :: i <= k < |cs| ==> cs[k].Model() == before[k]
      invariant forall k :: 0 <= k < i ==> cs[k].Model() == if before[k].state == Dead then before[k] else after[k]
    {
      var c := cs[i];
      KeepAppend(cs[..i], before[..i], c, before[i]);
      assert cs[..i + 1] == cs[..i] + [c];
      assert before[..i + 1] == before[..i] + [before[i]];
      if c.state != Dead {
        Visit(cs, i, after[i], player, time, draws[i], e);
        kept := kept + [c];
      }
    }
    assert cs[..|cs|] == cs && before[..|cs|] == before;
  }

  /** `next` is where one update takes a controller whose fields are `m`. */
  ghost predicate Steps(m: Agent, next: Agent, player: Vec3, time: real, d: Draws, e: Engine)
  {
    AgentInv(m) && ValidDraws(d) && next == Tick(m, player, time, d, e).next
  }

  /** The controller at `i` of the pass, updated with its attack signal dropped; no other controller changes. */
  method Visit(cs: seq<AIController>, i: nat, ghost next: Agent, player: Vec3, time: real, d: Draws, e: Engine)
    requires Distinct(cs) && i < |cs|
    requires Steps(cs[i].Model(), next, player, time, d, e)
    modifies cs[i]
    ensures cs[i].Model() == next
    ensures forall k :: 0 <= k < |cs| && k != i ==> cs[k].Model() == old(cs[k].Model())
  {
    var _ := cs[i].Update(player, time, d, e);
  }

  /** The models of `cs`, in order. */
  function Models(cs: seq<AIController>): (ms: seq<Agent>)
    reads cs
    ensures |ms| == |cs| && forall k :: 0 <= k < |cs| ==> ms[k] == cs[k].Model()
  {
    seq(|cs|, k requires 0 <= k < |cs| reads cs => cs[k].Model())
  }

  /** The controllers of `cs` whose model in `ms` is not DEAD. */
  function Keep(cs: seq<AIController>, ms: seq<Agent>): (r: seq<AIController>)
    requires |cs| == |ms|
    ensures |r| <= |cs|
  {
    if cs == [] then []
    else if ms[0].state != Dead then [cs[0]] + Keep(cs[1..], ms[1..])
    else Keep(cs[1..], ms[1..])
  }

  /** Only controllers of `cs` are kept, and none twice when `cs` has no duplicates. */
  lemma {:induction false} KeepDistinct(cs: seq<AIController>, ms: seq<Agent>)
    requires |cs| == |ms| && Distinct(cs)
    ensures forall j :: 0 <= j < |Keep(cs, ms)| ==> Keep(cs, ms)[j] in cs
    ensures Distinct(Keep(cs, ms))
    decreases |cs|
  {
    if cs != [] {
      var rest := Keep(cs[1..], ms[1..]);
      KeepDistinct(cs[1..], ms[1..]);
      assert forall j :: 0 <= j < |rest| ==> rest[j] in cs[1..] && rest[j] != cs[0];
    }
  }

  lemma {:induction false} LiveIsKeep(cs: seq<AIController>)
    ensures Live(cs) == Keep(cs, Models(cs))
    decreases |cs|
  {
    if cs != [] {
      LiveIsKeep(cs[1..]);
      assert Models(cs)[1..] == Models(cs[1..]);
    }
  }

  lemma {:induction false} KeepAppend(cs: seq<AIController>, ms: seq<Agent>, c: AIController, m: Agent)
    requires |cs| == |ms|
    ensures Keep(cs + [c], ms + [m]) == Keep(cs, ms) + (if m.state != Dead then [c] else [])
    decreases |cs|
  {
    if cs == [] {
      assert cs + [c] == [c] && ms + [m] == [m];
    } else {
      assert (cs + [c])[1..] == cs[1..] + [c] && (ms + [m])[1..] == ms[1..] + [m];
      KeepAppend(cs[1..], ms[1..], c, m);
    }
  }
}
