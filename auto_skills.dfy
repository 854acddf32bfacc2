/**
 * The auto-skill engine (src/game/AutoSkillManager.js): rings of orbs and blades with one hit
 * cooldown each, the fireball that aims at the nearest monster, chain lightning, the poison aura
 * tick, the frost nova slow, regeneration, and the fireball projectiles. The store is passed in
 * and returned as a value; the monsters are the shared Monster objects.
 */
module AutoSkills {
  import opened Basics
  import opened Config
  import opened GameStore
  import opened Monsters

  /** Math.PI as a double. */
  const PI: real := 3.141592653589793

  /** The literals of the collision passes: how close a member must come, and how long it then rests. */
  const ORBITAL_REACH: real := 1.2
  const ORBITAL_HIT_RESET: real := 0.5
  const BLADES_REACH: real := 1.5
  const BLADES_HIT_RESET: real := 0.3
  /** The fireball's range, its projectile's reach and its lifetime. */
  const FIREBALL_RANGE: real := 15.0
  const PROJECTILE_REACH: real := 1.2
  const FIREBALL_LIFETIME: real := 3.0
  /** The regeneration timer's period, in seconds. */
  const REGEN_PERIOD: real := 1.0

  // ---------------------------------------------------------------- orbs and blades

  /** An orb or a blade: its angle around the player and its one hit cooldown (unset reads as 0). */
  datatype Orb = Orb(angle: real, hitCooldown: real)

  /** The ring created when there is none: `count` members spread evenly from angle 0, none cooling down. */
  function NewRing(count: nat): (ring: seq<Orb>)
    ensures |ring| == count
    ensures forall i :: 0 <= i < count ==> ring[i].hitCooldown == 0.0
  {
    seq(count, i requires 0 <= i < count => Orb(PI * 2.0 / count as real * i as real, 0.0))
  }

  /** Every member advances by `speed * delta` radians. */
  function Turned(ring: seq<Orb>, speed: real, delta: real): (r: seq<Orb>)
    ensures |r| == |ring|
    ensures forall i :: 0 <= i < |ring| ==> r[i].hitCooldown == ring[i].hitCooldown
  {
    seq(|ring|, i requires 0 <= i < |ring| => ring[i].(angle := ring[i].angle + speed * delta))
  }

  /** Where each member stands: `radius` from the player at its angle; `cos` and `sin` stand for Math.cos and Math.sin. */
  function Spots(ring: seq<Orb>, px: real, pz: real, radius: real,
                 cos: real -> real, sin: real -> real): (spots: seq<(real, real)>)
    ensures |spots| == |ring|
  {
    seq(|ring|, i requires 0 <= i < |ring| => (px + cos(ring[i].angle) * radius, pz + sin(ring[i].angle) * radius))
  }

  function Cooldowns(ring: seq<Orb>): (cds: seq<real>)
    ensures |cds| == |ring| && forall i :: 0 <= i < |ring| ==> cds[i] == ring[i].hitCooldown
  {
    seq(|ring|, i requires 0 <= i < |ring| => ring[i].hitCooldown)
  }

  /** The ring with its hit cooldowns replaced by `cds`, each then counting down by delta while above 0. */
  function Cooled(ring: seq<Orb>, cds: seq<real>, delta: real): (r: seq<Orb>)
    requires |cds| == |ring|
    ensures |r| == |ring|
    ensures forall i :: 0 <= i < |ring| ==> r[i].angle == ring[i].angle
    ensures forall i :: 0 <= i < |ring| ==> r[i].hitCooldown == if cds[i] > 0.0 then cds[i] - delta else cds[i]
  {
    seq(|ring|, i requires 0 <= i < |ring| =>
      Orb(ring[i].angle, if cds[i] > 0.0 then cds[i] - delta else cds[i]))
  }

  /** A member at `spot` touches a monster when their distance in the ground plane is below `reach`. */
  predicate Touches(spot: (real, real), v: MonsterView, reach: real) {
    Within(FlatDist2(spot.0, spot.1, v.x, v.z), reach)
  }

  /** How many members are ready to hit: cooldown at or below 0. */
  function Ready(cds: seq<real>): (n: nat)
    ensures n <= |cds|
  {
    if cds == [] then 0 else Ready(cds[..|cds| - 1]) + (if cds[|cds| - 1] <= 0.0 then 1 else 0)
  }

  /** Restarting the cooldown of a ready member leaves one fewer ready. */
  lemma {:induction false} ReadyAfterReset(cds: seq<real>, j: nat, reset: real)
    requires j < |cds| && cds[j] <= 0.0 && reset > 0.0
    ensures Ready(cds[j := reset]) + 1 == Ready(cds)
    decreases |cds|
  {
    var last := |cds| - 1;
    assert cds[j := reset][..last] == if j == last then cds[..last] else cds[..last][j := reset];
    if j < last {
      ReadyAfterReset(cds[..last], j, reset);
    }
  }

  /** The total HP of a list of monsters. */
  function HpSum(vs: seq<MonsterView>): real {
    if vs == [] then 0.0 else HpSum(vs[..|vs| - 1]) + vs[|vs| - 1].hp
  }

  lemma {:induction false} HpSumUpdate(vs: seq<MonsterView>, i: nat, w: MonsterView)
    requires i < |vs|
    ensures HpSum(vs[i := w]) == HpSum(vs) - vs[i].hp + w.hp
    decreases |vs|
  {
    var last := |vs| - 1;
    assert vs[i := w][..last] == if i == last then vs[..last] else vs[..last][i := w];
    if i < last {
      HpSumUpdate(vs[..last], i, w);
    }
  }

  /**
   * One monster met by the first n members, in ring order: a member that touches it while ready
   * strikes it with `damage` (a dead monster ignores the blow) and restarts its own cooldown at
   * `reset` — even when the blow found the monster already dead.
   */
  function Pass(v: MonsterView, spots: seq<(real, real)>, cds: seq<real>, damage: real, reset: real, reach: real,
                s: State, order: Shuffle, n: nat): (r: (MonsterView, seq<real>, State))
    requires |spots| == |cds| && n <= |cds|
    ensures |r.1| == |cds|
    decreases n
  {
    if n == 0 then (v, cds, s)
    else
      var prev := Pass(v, spots, cds, damage, reset, reach, s, order, n - 1);
      if Touches(spots[n - 1], prev.0, reach) && prev.1[n - 1] <= 0.0 then
        (Struck(prev.0, damage), prev.1[n - 1 := reset], StoreAfterBlow(prev.0, damage, prev.2, order))
      else prev
  }

  /**
   * The collision pass of a ring over the first k monsters, in list order: a monster dead when
   * its turn comes is skipped, a living one meets every member in turn (Pass).
   */
  function Sweep(vs: seq<MonsterView>, spots: seq<(real, real)>, cds: seq<real>, damage: real, reset: real,
                 reach: real, s: State, order: Shuffle, k: nat): (r: (seq<MonsterView>, seq<real>, State))
    requires |spots| == |cds| && k <= |vs|
    ensures |r.0| == |vs| && |r.1| == |cds|
    decreases k
  {
    if k == 0 then (vs, cds, s)
    else
      var prev := Sweep(vs, spots, cds, damage, reset, reach, s, order, k - 1);
      if prev.0[k - 1].dead then prev
      else
        var p := Pass(prev.0[k - 1], spots, prev.1, damage, reset, reach, prev.2, order, |spots|);
        (prev.0[k - 1 := p.0], p.1, p.2)
  }

  /**
   * In one monster's pass a member's cooldown either stays as it was or, when it was ready,
   * restarts at `reset`; members past the first n are untouched, and the monster changes only
   * in HP and death.
   */
  lemma {:induction false} PassCooldowns(v: MonsterView, spots: seq<(real, real)>, cds: seq<real>, damage: real,
                                         reset: real, reach: real, s: State, order: Shuffle, n: nat)
    requires |spots| == |cds| && n <= |cds|
    ensures var r := Pass(v, spots, cds, damage, reset, reach, s, order, n);
      && (forall j :: n <= j < |cds| ==> r.1[j] == cds[j])
      && (forall j :: 0 <= j < |cds| ==> r.1[j] == cds[j] || (cds[j] <= 0.0 && r.1[j] == reset))
      && r.0 == v.(hp := r.0.hp, dead := r.0.dead)
    decreases n
  {
    if n > 0 {
      PassCooldowns(v, spots, cds, damage, reset, reach, s, order, n - 1);
    }
  }

  /** The same over a whole collision pass; monsters past the first k are untouched. */
  lemma {:induction false} SweepCooldowns(vs: seq<MonsterView>, spots: seq<(real, real)>, cds: seq<real>, damage: real,
                                          reset: real, reach: real, s: State, order: Shuffle, k: nat)
    requires |spots| == |cds| && k <= |vs|
    ensures var r := Sweep(vs, spots, cds, damage, reset, reach, s, order, k);
      && (forall i :: k <= i < |vs| ==> r.0[i] == vs[i])
      && (forall j :: 0 <= j < |cds| ==> r.1[j] == cds[j] || (cds[j] <= 0.0 && r.1[j] == reset))
    decreases k
  {
    if k > 0 {
      SweepCooldowns(vs, spots, cds, damage, reset, reach, s, order, k - 1);
      var prev := Sweep(vs, spots, cds, damage, reset, reach, s, order, k - 1);
      if !prev.0[k - 1].dead {
        PassCooldowns(prev.0[k - 1], spots, prev.1, damage, reset, reach, prev.2, order, |spots|);
      }
    }
  }

  /** n blows of `d` each, added up one at a time. */
  function Times(n: nat, d: real): real {
    if n == 0 then 0.0 else Times(n - 1, d) + d
  }

  /**
   * In one monster's pass, every HP point lost is paid for by a member that was ready and no
   * longer is: the HP lost plus `damage` per member still ready is at most `damage` per member
   * ready before.
   */
  lemma {:induction false} PassBound(v: MonsterView, spots: seq<(real, real)>, cds: seq<real>, damage: real,
                                     reset: real, reach: real, s: State, order: Shuffle, n: nat)
    requires |spots| == |cds| && n <= |cds| && damage >= 0.0 && reset > 0.0
    ensures var r := Pass(v, spots, cds, damage, reset, reach, s, order, n);
      Ready(r.1) <= Ready(cds) && v.hp - r.0.hp + Times(Ready(r.1), damage) <= Times(Ready(cds), damage)
    decreases n
  {
    if n > 0 {
      PassBound(v, spots, cds, damage, reset, reach, s, order, n - 1);
      var prev := Pass(v, spots, cds, damage, reset, reach, s, order, n - 1);
      var r := Pass(v, spots, cds, damage, reset, reach, s, order, n);
      if Touches(spots[n - 1], prev.0, reach) && prev.1[n - 1] <= 0.0 {
        assert r.0 == Struck(prev.0, damage) && r.1 == prev.1[n - 1 := reset];
        ReadyAfterReset(prev.1, n - 1, reset);
        assert Times(Ready(prev.1), damage) == Times(Ready(r.1), damage) + damage;
      } else {
        assert r.0 == prev.0 && r.1 == prev.1;
      }
    }
  }

  /** The losses before monster i and at monster i add up. */
  lemma SweepBoundStep(vs: seq<MonsterView>, ws: seq<MonsterView>, i: nat, w: MonsterView,
                       t0: real, t1: real, t2: real)
    requires i < |ws|
    requires HpSum(vs) - HpSum(ws) + t1 <= t0
    requires ws[i].hp - w.hp + t2 <= t1
    ensures HpSum(vs) - HpSum(ws[i := w]) + t2 <= t0
  {
    HpSumUpdate(ws, i, w);
  }

  /**
   * The rate limit of orbs and blades: in one collision pass each member strikes at most once,
   * so the HP the monsters lose plus `damage` per member still ready is at most `damage` per
   * member ready before; members already cooling down strike nothing.
   */
  lemma {:induction false} SweepBound(vs: seq<MonsterView>, spots: seq<(real, real)>, cds: seq<real>, damage: real,
                                      reset: real, reach: real, s: State, order: Shuffle, k: nat)
    requires |spots| == |cds| && k <= |vs| && damage >= 0.0 && reset > 0.0
    ensures var r := Sweep(vs, spots, cds, damage, reset, reach, s, order, k);
      HpSum(vs) - HpSum(r.0) + Times(Ready(r.1), damage) <= Times(Ready(cds), damage)
    decreases k
  {
    if k > 0 {
      SweepBound(vs, spots, cds, damage, reset, reach, s, order, k - 1);
      var prev := Sweep(vs, spots, cds, damage, reset, reach, s, order, k - 1);
      if !prev.0[k - 1].dead {
        var v := prev.0[k - 1];
        var p := Pass(v, spots, prev.1, damage, reset, reach, prev.2, order, |spots|);
        PassBound(v, spots, prev.1, damage, reset, reach, prev.2, order, |spots|);
        SweepBoundStep(vs, prev.0, k - 1, p.0, Times(Ready(cds), damage), Times(Ready(prev.1), damage),
                       Times(Ready(p.1), damage));
      }
    }
  }

  /**
   * A member that struck during a collision pass is still cooling down after the frame's
   * countdown (Cooled), as long as a frame is shorter than `reset`: it cannot strike again in
   * the next frame.
   */
  lemma StruckMemberWaits(ring: seq<Orb>, vs: seq<MonsterView>, spots: seq<(real, real)>, cds: seq<real>,
                          damage: real, reset: real, reach: real, s: State, order: Shuffle, k: nat,
                          delta: real, j: nat)
    requires |spots| == |cds| == |ring| && k <= |vs| && j < |cds| && 0.0 <= delta < reset
    ensures var r := Sweep(vs, spots, cds, damage, reset, reach, s, order, k);
      r.1[j] != cds[j] ==> Cooled(ring, r.1, delta)[j].hitCooldown > 0.0
  {
    SweepCooldowns(vs, spots, cds, damage, reset, reach, s, order, k);
  }

  /**
   * One frame of updateOrbital or updateSpinningBlades: the ring is created if there is none,
   * turned, swept over the monsters, and its hit cooldowns count down. The result is the ring,
   * the monsters and the store.
   */
  function RingFrame(ring: seq<Orb>, count: nat, speed: real, radius: real, damage: real, reset: real, reach: real,
                     delta: real, px: real, pz: real, vs: seq<MonsterView>, s: State, order: Shuffle,
                     cos: real -> real, sin: real -> real): (r: (seq<Orb>, seq<MonsterView>, State))
    ensures |r.0| == (if ring == [] then count else |ring|) && |r.1| == |vs|
  {
    var placed := Turned(if ring == [] then NewRing(count) else ring, speed, delta);
    var sw := Sweep(vs, Spots(placed, px, pz, radius, cos, sin), Cooldowns(placed), damage, reset, reach, s, order, |vs|);
    (Cooled(placed, sw.1, delta), sw.0, sw.2)
  }

  /** A ring is absent or complete, and no member rests longer than `reset`. */
  predicate RingOk(ring: seq<Orb>, count: nat, reset: real) {
    && (|ring| == 0 || |ring| == count)
    && forall i :: 0 <= i < |ring| ==> ring[i].hitCooldown <= reset
  }

  /** A frame leaves the ring complete and keeps every member's rest at most `reset`. */
  lemma RingFrameKeepsRing(ring: seq<Orb>, count: nat, speed: real, radius: real, damage: real, reset: real,
                           reach: real, delta: real, px: real, pz: real, vs: seq<MonsterView>, s: State,
                           order: Shuffle, cos: real -> real, sin: real -> real)
    requires RingOk(ring, count, reset) && reset >= 0.0 && delta >= 0.0
    ensures RingOk(RingFrame(ring, count, speed, radius, damage, reset, reach, delta, px, pz, vs, s, order, cos, sin).0, count, reset)
    ensures |RingFrame(ring, count, speed, radius, damage, reset, reach, delta, px, pz, vs, s, order, cos, sin).0| == count
  {
    var placed := Turned(if ring == [] then NewRing(count) else ring, speed, delta);
    SweepCooldowns(vs, Spots(placed, px, pz, radius, cos, sin), Cooldowns(placed), damage, reset, reach, s, order, |vs|);
  }

  lemma {:induction false} TimesGrows(a: nat, b: nat, d: real)
    requires a <= b && d >= 0.0
    ensures Times(a, d) <= Times(b, d)
    decreases b
  {
    if a < b {
      TimesGrows(a, b - 1, d);
    }
  }

  /** Per frame, a ring takes from the monsters at most `damage` HP per member. */
  lemma RingRateLimit(ring: seq<Orb>, count: nat, speed: real, radius: real, damage: real, reset: real,
                      reach: real, delta: real, px: real, pz: real, vs: seq<MonsterView>, s: State,
                      order: Shuffle, cos: real -> real, sin: real -> real)
    requires damage >= 0.0 && reset > 0.0
    ensures HpSum(vs) - HpSum(RingFrame(ring, count, speed, radius, damage, reset, reach, delta, px, pz, vs, s, order, cos, sin).1)
      <= Times(|RingFrame(ring, count, speed, radius, damage, reset, reach, delta, px, pz, vs, s, order, cos, sin).0|, damage)
  {
    var placed := Turned(if ring == [] then NewRing(count) else ring, speed, delta);
    var cds := Cooldowns(placed);
    var spots := Spots(placed, px, pz, radius, cos, sin);
    SweepBound(vs, spots, cds, damage, reset, reach, s, order, |vs|);
    var sw := Sweep(vs, spots, cds, damage, reset, reach, s, order, |vs|);
    TimesGrows(0, Ready(sw.1), damage);
    TimesGrows(Ready(cds), |placed|, damage);
  }

  // ---------------------------------------------------------------- nearest monster

  /** The squared distance from a point to a monster, which orders monsters as distanceTo does. */
  function DistTo(lx: real, ly: real, lz: real, v: MonsterView): real {
    Dist2(lx, ly, lz, v.x, v.y, v.z)
  }

  /** A monster a search may pick: alive, not hit yet, and (given a range) strictly within it of (lx, ly, lz). */
  predicate Candidate(v: MonsterView, i: nat, hit: seq<nat>, lx: real, ly: real, lz: real, range: Option<real>) {
    !v.dead && i !in hit && (range.None? || Within(DistTo(lx, ly, lz, v), range.value))
  }

  /**
   * The search of updateFireball and strikeLightning over the first k monsters: the candidate
   * nearest to (lx, ly, lz), the earliest one among equals (the comparison is strict).
   */
  function Nearest(vs: seq<MonsterView>, hit: seq<nat>, lx: real, ly: real, lz: real, range: Option<real>, k: nat)
    : (r: Option<nat>)
    requires k <= |vs|
    ensures r.Some? ==> r.value < k && Candidate(vs[r.value], r.value, hit, lx, ly, lz, range)
    decreases k
  {
    if k == 0 then None
    else
      var prev := Nearest(vs, hit, lx, ly, lz, range, k - 1);
      if Candidate(vs[k - 1], k - 1, hit, lx, ly, lz, range)
         && (prev.None? || DistTo(lx, ly, lz, vs[k - 1]) < DistTo(lx, ly, lz, vs[prev.value]))
      then Some(k - 1)
      else prev
  }

  /**
   * Nearest finds a candidate exactly when there is one, and it is a closest one: no candidate
   * is nearer, and every candidate before it is strictly farther.
   */
  lemma {:induction false} NearestIsClosest(vs: seq<MonsterView>, hit: seq<nat>, lx: real, ly: real, lz: real,
                                            range: Option<real>, k: nat)
    requires k <= |vs|
    ensures var r := Nearest(vs, hit, lx, ly, lz, range, k);
      && (r.None? <==> forall i :: 0 <= i < k ==> !Candidate(vs[i], i, hit, lx, ly, lz, range))
      && (r.Some? ==> forall i :: 0 <= i < k && Candidate(vs[i], i, hit, lx, ly, lz, range) ==>
            DistTo(lx, ly, lz, vs[r.value]) <= DistTo(lx, ly, lz, vs[i]))
      && (r.Some? ==> forall i :: 0 <= i < r.value && Candidate(vs[i], i, hit, lx, ly, lz, range) ==>
            DistTo(lx, ly, lz, vs[r.value]) < DistTo(lx, ly, lz, vs[i]))
    decreases k
  {
    if k > 0 {
      NearestIsClosest(vs, hit, lx, ly, lz, range, k - 1);
    }
  }

  /** The loop behind Nearest, over the monster objects as they are now. */
  method FindNearest(ms: seq<Monster>, hit: seq<nat>, lx: real, ly: real, lz: real, range: Option<real>)
    returns (r: Option<nat>)
    ensures r == Nearest(Views(ms), hit, lx, ly, lz, range, |ms|)
  {
    r := None;
    var best := 0.0;
    for i := 0 to |ms|
      invariant r == Nearest(Views(ms), hit, lx, ly, lz, range, i)
      invariant r.Some? ==> best == DistTo(lx, ly, lz, ms[r.value].View())
    {
      var m := ms[i];
      if m.dead || i in hit {
        continue;
      }
      var d := Dist2(lx, ly, lz, m.x, m.y, m.z);
      if (range.None? || Within(d, range.value)) && (r.None? || d < best) {
        r, best := Some(i), d;
      }
    }
  }

  // ---------------------------------------------------------------- fireball and projectiles

  /** A flying projectile; its height stays 1 and its direction has no height component. */
  datatype Projectile = Projectile(x: real, z: real, dirX: real, dirZ: real, speed: real, damage: real,
                                   dead: bool, lifetime: real)

  /**
   * The monster updateFireball shoots at: the nearest living one, provided it is closer than 15.
   * The frame's shot is skipped when there is no such monster.
   */
  function FireballTarget(vs: seq<MonsterView>, px: real, py: real, pz: real): (r: Option<nat>)
    ensures r.Some? ==> r.value < |vs| && !vs[r.value].dead && Within(DistTo(px, py, pz, vs[r.value]), FIREBALL_RANGE)
  {
    var n := Nearest(vs, [], px, py, pz, None, |vs|);
    if n.Some? && Within(DistTo(px, py, pz, vs[n.value]), FIREBALL_RANGE) then n else None
  }

  /** The fireball aims at a living monster within 15 that no living monster is nearer than; it holds fire only when no living monster is within 15. */
  lemma FireballAimsAtNearest(vs: seq<MonsterView>, px: real, py: real, pz: real)
    ensures var r := FireballTarget(vs, px, py, pz);
      && (r.Some? ==> r.value < |vs| && !vs[r.value].dead && Within(DistTo(px, py, pz, vs[r.value]), FIREBALL_RANGE)
                      && forall i :: 0 <= i < |vs| && !vs[i].dead ==> DistTo(px, py, pz, vs[r.value]) <= DistTo(px, py, pz, vs[i]))
      && (r.None? <==> forall i :: 0 <= i < |vs| && !vs[i].dead ==> !Within(DistTo(px, py, pz, vs[i]), FIREBALL_RANGE))
  {
    NearestIsClosest(vs, [], px, py, pz, None, |vs|);
    forall i | 0 <= i < |vs| && !vs[i].dead
      ensures Candidate(vs[i], i, [], px, py, pz, None)
    {
    }
  }

  /**
   * shootFireball: a projectile from the player's ground position towards the target along the
   * normalised ground direction (Vector3.normalize leaves a zero vector zero), with the fireball's
   * speed and damage and 3 seconds to live.
   */
  function Shot(px: real, pz: real, tx: real, tz: real, root: real -> real): (p: Projectile)
    ensures !p.dead && p.lifetime == FIREBALL_LIFETIME && p.speed == FIREBALL_SPEED && p.damage == FIREBALL_DAMAGE
    ensures (p.x, p.z) == (px, pz)
  {
    var len := root(FlatDist2(tx, tz, px, pz));
    if len == 0.0 then Projectile(px, pz, 0.0, 0.0, FIREBALL_SPEED, FIREBALL_DAMAGE, false, FIREBALL_LIFETIME)
    else Projectile(px, pz, (tx - px) / len, (tz - pz) / len, FIREBALL_SPEED, FIREBALL_DAMAGE, false, FIREBALL_LIFETIME)
  }

  /** The first of the first k monsters that is alive and within 1.2 of (x, z) on the ground. */
  function FirstInReach(vs: seq<MonsterView>, x: real, z: real, k: nat): (r: Option<nat>)
    requires k <= |vs|
    ensures r.Some? ==> r.value < k && !vs[r.value].dead && Within(FlatDist2(x, z, vs[r.value].x, vs[r.value].z), PROJECTILE_REACH)
    ensures r.Some? ==> forall i :: 0 <= i < r.value ==> vs[i].dead || !Within(FlatDist2(x, z, vs[i].x, vs[i].z), PROJECTILE_REACH)
    ensures r.None? ==> forall i :: 0 <= i < k ==> vs[i].dead || !Within(FlatDist2(x, z, vs[i].x, vs[i].z), PROJECTILE_REACH)
    decreases k
  {
    if k == 0 then None
    else
      var prev := FirstInReach(vs, x, z, k - 1);
      if prev.Some? then prev
      else if !vs[k - 1].dead && Within(FlatDist2(x, z, vs[k - 1].x, vs[k - 1].z), PROJECTILE_REACH) then Some(k - 1)
      else None
  }

  /** A living projectile moves `speed * delta` along its direction and ages by delta. */
  function Moved(p: Projectile, delta: real): Projectile {
    p.(x := p.x + p.dirX * (p.speed * delta), z := p.z + p.dirZ * (p.speed * delta), lifetime := p.lifetime - delta)
  }

  /**
   * One projectile's frame: a dead one is left alone; a living one moves and ages, dies of old
   * age without hitting anything, or else strikes the first living monster in reach and dies.
   */
  function Fly(p: Projectile, delta: real, vs: seq<MonsterView>, s: State, order: Shuffle)
    : (r: (Projectile, seq<MonsterView>, State))
    ensures p.dead ==> r == (p, vs, s)
    ensures !p.dead && p.lifetime - delta <= 0.0 ==> r == (Moved(p, delta).(dead := true), vs, s)
    ensures |r.1| == |vs|
    ensures forall i :: 0 <= i < |vs| && r.1[i] != vs[i] ==>
      && r.0.dead && !vs[i].dead && r.1[i] == Struck(vs[i], p.damage)
      && r.2 == StoreAfterBlow(vs[i], p.damage, s, order)
      && forall j :: 0 <= j < |vs| && j != i ==> r.1[j] == vs[j]
    ensures !r.0.dead ==> r.1 == vs && r.2 == s
  {
    if p.dead then (p, vs, s)
    else
      var q := Moved(p, delta);
      if q.lifetime <= 0.0 then (q.(dead := true), vs, s)
      else match FirstInReach(vs, q.x, q.z, |vs|)
        case None => (q, vs, s)
        case Some(i) => (q.(dead := true), vs[i := Struck(vs[i], q.damage)], StoreAfterBlow(vs[i], q.damage, s, order))
  }

  /** updateProjectiles over the first k projectiles, each flying against the monsters as the previous ones left them. */
  function FlyAll(ps: seq<Projectile>, delta: real, vs: seq<MonsterView>, s: State, order: Shuffle, k: nat)
    : (r: (seq<Projectile>, seq<MonsterView>, State))
    requires k <= |ps|
    ensures |r.0| == |ps| && |r.1| == |vs|
    ensures forall i :: k <= i < |ps| ==> r.0[i] == ps[i]
    ensures forall i :: 0 <= i < k ==> r.0[i].dead || !ps[i].dead
    decreases k
  {
    if k == 0 then (ps, vs, s)
    else
      var prev := FlyAll(ps, delta, vs, s, order, k - 1);
      var f := Fly(ps[k - 1], delta, prev.1, prev.2, order);
      (prev.0[k - 1 := f.0], f.1, f.2)
  }

  /** The projectiles that survive the clean-up at the end of update, in order. */
  function LiveProjectiles(ps: seq<Projectile>): (r: seq<Projectile>)
    ensures |r| <= |ps|
    ensures forall i :: 0 <= i < |r| ==> !r[i].dead && r[i] in ps
    ensures forall i :: 0 <= i < |ps| && !ps[i].dead ==> ps[i] in r
  {
    if ps == [] then []
    else LiveProjectiles(ps[..|ps| - 1]) + (if ps[|ps| - 1].dead then [] else [ps[|ps| - 1]])
  }

  /** For each projectile, whether it is still flying: the test of updateProjectiles' filter. */
  function FlyingFlags(ps: seq<Projectile>): (f: seq<bool>)
    ensures |f| == |ps| && forall i :: 0 <= i < |ps| ==> (f[i] <==> !ps[i].dead)
  {
    seq(|ps|, i requires 0 <= i < |ps| => !ps[i].dead)
  }

  /** The filter keeps the order: the i-th projectile left is the one at the i-th flying position. */
  lemma {:induction false} LiveProjectilesInOrder(ps: seq<Projectile>)
    ensures |LiveProjectiles(ps)| == |Kept(FlyingFlags(ps))|
    ensures forall i :: 0 <= i < |LiveProjectiles(ps)| ==> LiveProjectiles(ps)[i] == ps[Kept(FlyingFlags(ps))[i]]
  {
    if ps != [] {
      var n := |ps| - 1;
      LiveProjectilesInOrder(ps[..n]);
      assert FlyingFlags(ps)[..n] == FlyingFlags(ps[..n]);
      KeptStep(ps, FlyingFlags(ps), LiveProjectiles(ps[..n]));
    }
  }

  // ---------------------------------------------------------------- poison aura and frost nova

  /** The poison tick: every monster alive and strictly within POISON_RADIUS takes POISON_DAMAGE once. */
  function PoisonBlows(vs: seq<MonsterView>, px: real, py: real, pz: real): (blows: seq<Blow>)
    ensures |blows| == |vs|
    ensures forall i :: 0 <= i < |vs| ==> blows[i] == Miss || (blows[i] == Hit(POISON_DAMAGE) && !vs[i].dead)
  {
    seq(|vs|, i requires 0 <= i < |vs| =>
      if !vs[i].dead && Within(DistTo(px, py, pz, vs[i]), POISON_RADIUS) then Hit(POISON_DAMAGE) else Miss)
  }

  /**
   * A poison tick as the monsters see it: each one alive and strictly within POISON_RADIUS loses
   * POISON_DAMAGE once, and every other monster is left exactly as it was.
   */
  lemma PoisonTick(vs: seq<MonsterView>, px: real, py: real, pz: real, s: State, order: Shuffle)
    ensures var r := ApplyBlows(vs, PoisonBlows(vs, px, py, pz), s, order, |vs|);
      forall j :: 0 <= j < |vs| ==>
        r.0[j] == if !vs[j].dead && Within(DistTo(px, py, pz, vs[j]), POISON_RADIUS)
                  then Struck(vs[j], POISON_DAMAGE) else vs[j]
  {
    ApplyBlowsLands(vs, PoisonBlows(vs, px, py, pz), s, order, |vs|);
  }

  /** The monsters a frost nova catches: alive and strictly within FROST_RADIUS. */
  predicate InFrost(v: MonsterView, px: real, py: real, pz: real) {
    !v.dead && Within(DistTo(px, py, pz, v), FROST_RADIUS)
  }

  function FrostBlows(vs: seq<MonsterView>, px: real, py: real, pz: real): (blows: seq<Blow>)
    ensures |blows| == |vs|
    ensures forall i :: 0 <= i < |vs| ==> blows[i] == Miss || (blows[i] == Hit(FROST_DAMAGE) && !vs[i].dead)
  {
    seq(|vs|, i requires 0 <= i < |vs| => if InFrost(vs[i], px, py, pz) then Hit(FROST_DAMAGE) else Miss)
  }

  /** A slow: a monster not slowed yet records its speed and is slowed by `factor`; a slowed one is left as it is. */
  function Chilled(v: MonsterView, factor: real): (w: MonsterView)
    ensures v.slowed ==> w == v
    ensures w.slowed && w.hp == v.hp && w.dead == v.dead && (w.x, w.y, w.z) == (v.x, v.y, v.z)
  {
    if v.slowed then v else v.(slowed := true, originalSpeed := v.speed, speed := v.speed * factor)
  }

  /** The end of a slow, when its timer fires: a living monster gets its recorded speed back; a dead one is left as it is. */
  function Thawed(v: MonsterView): (w: MonsterView)
    ensures v.dead ==> w == v
    ensures !v.dead ==> !w.slowed && w.speed == v.originalSpeed
  {
    if v.dead then v else v.(speed := v.originalSpeed, slowed := false)
  }

  /** Slows never stack: a second nova on a slowed monster leaves its speed and its recorded speed alone. */
  lemma SlowsNeverStack(v: MonsterView, first: real, second: real)
    ensures Chilled(Chilled(v, first), second) == Chilled(v, first)
    ensures !v.slowed ==> Chilled(Chilled(v, first), second).originalSpeed == v.speed
  {
  }

  /** A slow and its expiry give a living monster back exactly the speed it had before the slow. */
  lemma ThawRestoresSpeed(v: MonsterView, factor: real)
    requires !v.slowed && !v.dead
    ensures Thawed(Chilled(v, factor)) == v.(originalSpeed := v.speed)
  {
  }

  /** A frost nova's effect on one monster: caught monsters take the damage and then the slow. */
  function Frosted(v: MonsterView, px: real, py: real, pz: real): (w: MonsterView)
    ensures InFrost(v, px, py, pz) ==> w == Chilled(Struck(v, FROST_DAMAGE), FROST_SLOW_AMOUNT)
    ensures !InFrost(v, px, py, pz) ==> w == v
  {
    if InFrost(v, px, py, pz) then Chilled(Struck(v, FROST_DAMAGE), FROST_SLOW_AMOUNT) else v
  }

  // ---------------------------------------------------------------- chain lightning

  /** The indices of the living monsters among the first k, in order: the list strikeLightning picks from. */
  function AliveIndices(vs: seq<MonsterView>, k: nat): (r: seq<nat>)
    requires k <= |vs|
    ensures |r| <= k
    ensures forall i :: 0 <= i < |r| ==> r[i] < k && !vs[r[i]].dead
    ensures forall i :: 0 <= i < k && !vs[i].dead ==> i in r
    ensures forall a, b :: 0 <= a < b < |r| ==> r[a] < r[b]
    decreases k
  {
    if k == 0 then [] else AliveIndices(vs, k - 1) + (if vs[k - 1].dead then [] else [k - 1])
  }

  /** `list[Math.floor(draw * list.length)]`'s index. */
  function PickIndex(n: nat, draw: real): (i: nat)
    requires n > 0 && 0.0 <= draw < 1.0
    ensures i < n
  {
    var i := (draw * n as real).Floor;
    assert 0 <= i < n by {
      assert draw * n as real < n as real;
    }
    i
  }

  predicate Inside(hit: seq<nat>, n: nat) {
    forall i :: 0 <= i < |hit| ==> hit[i] < n
  }

  /** The damage of a chained strike: 0.7 of the lightning's. */
  const CHAIN_DAMAGE: real := LIGHTNING_DAMAGE * 0.7

  /**
   * Whom the chain jumps to after the monsters in `hit`, with `steps` more tries: each try picks
   * the nearest monster alive, not yet hit and strictly within LIGHTNING_CHAIN_RANGE of the last
   * monster hit, and the chain stops at the first try that finds none. The monsters are read as
   * they were before the strike: blows change only monsters already in `hit`, which no try may
   * pick again, and no blow moves a monster (NearestIgnoresHit).
   */
  function ChainTargets(vs: seq<MonsterView>, hit: seq<nat>, steps: nat): (r: seq<nat>)
    requires hit != [] && Inside(hit, |vs|)
    ensures Inside(r, |vs|) && |hit| <= |r| <= |hit| + steps && r[..|hit|] == hit
    decreases steps
  {
    if steps == 0 then hit
    else
      var last := vs[hit[|hit| - 1]];
      match Nearest(vs, hit, last.x, last.y, last.z, Some(LIGHTNING_CHAIN_RANGE), |vs|)
      case None => hit
      case Some(j) =>
        var r := ChainTargets(vs, hit + [j], steps - 1);
        assert r[..|hit|] == (r[..|hit| + 1])[..|hit|];
        r
  }

  /** The k-th monster hit was not hit before, was alive, and stood strictly within LIGHTNING_CHAIN_RANGE of the one before it. */
  predicate Linked(vs: seq<MonsterView>, r: seq<nat>, k: nat)
    requires Inside(r, |vs|) && 0 < k < |r|
  {
    && r[k] !in r[..k] && !vs[r[k]].dead
    && Within(DistTo(vs[r[k - 1]].x, vs[r[k - 1]].y, vs[r[k - 1]].z, vs[r[k]]), LIGHTNING_CHAIN_RANGE)
  }

  /**
   * Every monster the chain adds was not hit before, was alive, and stood strictly within
   * LIGHTNING_CHAIN_RANGE of the monster hit just before it.
   */
  lemma {:induction false} ChainPicks(vs: seq<MonsterView>, hit: seq<nat>, steps: nat)
    requires hit != [] && Inside(hit, |vs|)
    ensures forall k :: |hit| <= k < |ChainTargets(vs, hit, steps)| ==> Linked(vs, ChainTargets(vs, hit, steps), k)
    decreases steps
  {
    if steps > 0 {
      var last := vs[hit[|hit| - 1]];
      var n := Nearest(vs, hit, last.x, last.y, last.z, Some(LIGHTNING_CHAIN_RANGE), |vs|);
      if n.Some? {
        var j := n.value;
        ChainPicks(vs, hit + [j], steps - 1);
        var r := ChainTargets(vs, hit + [j], steps - 1);
        assert r[..|hit| + 1] == hit + [j];
        assert r[..|hit|] == hit && r[|hit|] == j && r[|hit| - 1] == hit[|hit| - 1] by {
          assert r[..|hit|] == (r[..|hit| + 1])[..|hit|];
        }
        assert Linked(vs, r, |hit|) by {
          assert Candidate(vs[j], j, hit, last.x, last.y, last.z, Some(LIGHTNING_CHAIN_RANGE));
        }
        assert ChainTargets(vs, hit, steps) == r;
      }
    }
  }

  /** A chain shorter than its tries stopped because no monster was left to jump to from the last one hit. */
  lemma {:induction false} ChainStops(vs: seq<MonsterView>, hit: seq<nat>, steps: nat)
    requires hit != [] && Inside(hit, |vs|)
    ensures var r := ChainTargets(vs, hit, steps);
      |r| < |hit| + steps ==>
        var last := vs[r[|r| - 1]];
        forall i :: 0 <= i < |vs| ==> !Candidate(vs[i], i, r, last.x, last.y, last.z, Some(LIGHTNING_CHAIN_RANGE))
    decreases steps
  {
    if steps > 0 {
      var last := vs[hit[|hit| - 1]];
      var n := Nearest(vs, hit, last.x, last.y, last.z, Some(LIGHTNING_CHAIN_RANGE), |vs|);
      if n.Some? {
        ChainStops(vs, hit + [n.value], steps - 1);
      } else {
        NearestIsClosest(vs, hit, last.x, last.y, last.z, Some(LIGHTNING_CHAIN_RANGE), |vs|);
      }
    }
  }

  /** Monster lists that differ only at hit monsters, and not in where anything stands. */
  predicate AgreeOffHit(ws: seq<MonsterView>, vs: seq<MonsterView>, hit: seq<nat>) {
    && |ws| == |vs|
    && (forall i :: 0 <= i < |vs| ==> (ws[i].x, ws[i].y, ws[i].z) == (vs[i].x, vs[i].y, vs[i].z))
    && (forall i :: 0 <= i < |vs| && i !in hit ==> ws[i] == vs[i])
  }

  /** The search cannot tell such lists apart: it skips hit monsters and measures from the same places. */
  lemma {:induction false} NearestIgnoresHit(ws: seq<MonsterView>, vs: seq<MonsterView>, hit: seq<nat>,
                                             lx: real, ly: real, lz: real, range: Option<real>, k: nat)
    requires AgreeOffHit(ws, vs, hit) && k <= |vs|
    ensures Nearest(ws, hit, lx, ly, lz, range, k) == Nearest(vs, hit, lx, ly, lz, range, k)
    decreases k
  {
    if k > 0 {
      NearestIgnoresHit(ws, vs, hit, lx, ly, lz, range, k - 1);
      var prev := Nearest(vs, hit, lx, ly, lz, range, k - 1);
      assert Candidate(ws[k - 1], k - 1, hit, lx, ly, lz, range) == Candidate(vs[k - 1], k - 1, hit, lx, ly, lz, range);
      if prev.Some? {
        assert DistTo(lx, ly, lz, ws[prev.value]) == DistTo(lx, ly, lz, vs[prev.value]);
        assert DistTo(lx, ly, lz, ws[k - 1]) == DistTo(lx, ly, lz, vs[k - 1]);
      }
    }
  }

  /** Blows of `amount` on the monsters in `targets`, in that order, each with its store effect. */
  function StrikeInTurn(vs: seq<MonsterView>, s: State, order: Shuffle, targets: seq<nat>, amount: real)
    : (r: (seq<MonsterView>, State))
    requires Inside(targets, |vs|)
    ensures AgreeOffHit(r.0, vs, targets)
    decreases |targets|
  {
    if targets == [] then (vs, s)
    else
      var p := StrikeInTurn(vs, s, order, targets[..|targets| - 1], amount);
      var t := targets[|targets| - 1];
      (p.0[t := Struck(p.0[t], amount)], StoreAfterBlow(p.0[t], amount, p.1, order))
  }

  /** Blows on distinct monsters: each of them is struck once, every other monster is left as it was. */
  lemma {:induction false} StruckOnce(vs: seq<MonsterView>, s: State, order: Shuffle, targets: seq<nat>, amount: real)
    requires Inside(targets, |vs|) && forall a, b :: 0 <= a < b < |targets| ==> targets[a] != targets[b]
    ensures var r := StrikeInTurn(vs, s, order, targets, amount);
      forall i :: 0 <= i < |vs| ==> r.0[i] == if i in targets then Struck(vs[i], amount) else vs[i]
    decreases |targets|
  {
    if targets != [] {
      var front := targets[..|targets| - 1];
      StruckOnce(vs, s, order, front, amount);
      assert targets[|targets| - 1] !in front;
      forall i | 0 <= i < |vs|
        ensures i in targets <==> i in front || i == targets[|targets| - 1]
      {
        assert targets == front + [targets[|targets| - 1]];
      }
    }
  }

  /**
   * strikeLightning on the monster at `target`: full damage to it, then CHAIN_DAMAGE to each
   * monster the chain jumps to, in chain order. The result is the monsters, the store and the
   * monsters hit.
   */
  function Lightning(vs: seq<MonsterView>, target: nat, s: State, order: Shuffle): (r: (seq<MonsterView>, State, seq<nat>))
    requires target < |vs|
    ensures 1 <= |r.2| <= LIGHTNING_CHAIN_COUNT && r.2[0] == target && Inside(r.2, |vs|)
  {
    var hits := ChainTargets(vs, [target], LIGHTNING_CHAIN_COUNT - 1);
    assert hits[0] == hits[..1][0];
    var after := StrikeInTurn(vs[target := Struck(vs[target], LIGHTNING_DAMAGE)],
                              StoreAfterBlow(vs[target], LIGHTNING_DAMAGE, s, order), order, hits[1..], CHAIN_DAMAGE);
    (after.0, after.1, hits)
  }

  /**
   * The firing half of updateLightning: a living monster drawn with `draw` is struck and the
   * chain runs; with no living monster nothing happens. The flag says whether it fired.
   */
  function LightningTurn(vs: seq<MonsterView>, s: State, order: Shuffle, draw: real): (r: (seq<MonsterView>, State, bool))
    requires 0.0 <= draw < 1.0
    ensures r.2 ==> exists i :: 0 <= i < |vs| && !vs[i].dead
  {
    var alive := AliveIndices(vs, |vs|);
    if |alive| == 0 then (vs, s, false)
    else
      assert !vs[alive[0]].dead;
      var l := Lightning(vs, alive[PickIndex(|alive|, draw)], s, order);
      (l.0, l.1, true)
  }

  /** Lightning fires exactly when some monster is alive, and its first strike lands on a living monster. */
  lemma LightningFiresIffAlive(vs: seq<MonsterView>, s: State, order: Shuffle, draw: real)
    requires 0.0 <= draw < 1.0
    ensures var r := LightningTurn(vs, s, order, draw);
      && (r.2 <==> exists i :: 0 <= i < |vs| && !vs[i].dead)
      && (!r.2 ==> r.0 == vs && r.1 == s)
  {
    var alive := AliveIndices(vs, |vs|);
    if |alive| == 0 {
      assert forall i :: 0 <= i < |vs| ==> vs[i].dead;
    } else {
      assert !vs[alive[0]].dead;
    }
  }

  /**
   * Chain lightning strikes distinct monsters, the first with full damage and each later one
   * with 0.7 of it; every monster it does not strike is left as it was.
   */
  lemma LightningStrikesEachOnce(vs: seq<MonsterView>, target: nat, s: State, order: Shuffle)
    requires target < |vs|
    ensures var r := Lightning(vs, target, s, order);
      && (forall a, b :: 0 <= a < b < |r.2| ==> r.2[a] != r.2[b])
      && r.0[target] == Struck(vs[target], LIGHTNING_DAMAGE)
      && (forall i :: 0 <= i < |vs| && i in r.2[1..] ==> r.0[i] == Struck(vs[i], CHAIN_DAMAGE))
      && (forall i :: 0 <= i < |vs| && i !in r.2 ==> r.0[i] == vs[i])
  {
    var hits := ChainTargets(vs, [target], LIGHTNING_CHAIN_COUNT - 1);
    ChainDistinct(vs, target);
    var tail := hits[1..];
    TailSplit(hits, target);
    var ws := vs[target := Struck(vs[target], LIGHTNING_DAMAGE)];
    StruckOnce(ws, StoreAfterBlow(vs[target], LIGHTNING_DAMAGE, s, order), order, tail, CHAIN_DAMAGE);
  }

  /** The monsters a chain hits are distinct: each jump goes to a monster not hit yet. */
  lemma ChainDistinct(vs: seq<MonsterView>, target: nat)
    requires target < |vs|
    ensures var hits := ChainTargets(vs, [target], LIGHTNING_CHAIN_COUNT - 1);
      hits != [] && hits[0] == target && forall a, b :: 0 <= a < b < |hits| ==> hits[a] != hits[b]
  {
    var hits := ChainTargets(vs, [target], LIGHTNING_CHAIN_COUNT - 1);
    assert hits[..1] == [target];
    ChainPicks(vs, [target], LIGHTNING_CHAIN_COUNT - 1);
    forall a, b | 0 <= a < b < |hits|
      ensures hits[a] != hits[b]
    {
      assert Linked(vs, hits, b);
      assert hits[a] in hits[..b];
    }
  }

  /** A list of distinct monsters starting at `target` is `target` followed by distinct others. */
  lemma TailSplit(hits: seq<nat>, target: nat)
    requires hits != [] && hits[0] == target && forall a, b :: 0 <= a < b < |hits| ==> hits[a] != hits[b]
    ensures forall a, b :: 0 <= a < b < |hits[1..]| ==> hits[1..][a] != hits[1..][b]
    ensures target !in hits[1..]
    ensures forall i :: i in hits <==> i == target || i in hits[1..]
  {
    var tail := hits[1..];
    assert hits == [target] + tail;
    forall a, b | 0 <= a < b < |tail|
      ensures tail[a] != tail[b]
    {
      assert tail[a] == hits[a + 1] && tail[b] == hits[b + 1];
    }
    forall a | 0 <= a < |tail|
      ensures tail[a] != target
    {
      assert hits[0] != hits[a + 1];
    }
  }

  // ---------------------------------------------------------------- effects on monster objects

  /** The slow a frost nova puts on a monster, in place. */
  method Chill(m: Monster, factor: real)
    modifies m
    ensures m.View() == Chilled(old(m.View()), factor)
  {
    if !m.slowed {
      m.slowed := true;
      m.originalSpeed := m.speed;
      m.speed := m.speed * factor;
    }
  }

  /** Chill on the i-th monster of a list: it alone changes. */
  method ChillOne(ms: seq<Monster>, i: nat, factor: real)
    requires Distinct(ms) && i < |ms|
    modifies ms[i]
    ensures Views(ms) == old(Views(ms))[i := Chilled(old(Views(ms))[i], factor)]
  {
    ghost var before := Views(ms);
    Chill(ms[i], factor);
    assert forall j :: 0 <= j < |ms| && j != i ==> ms[j].View() == before[j];
  }

  /** The timer callback that ends a slow after FROST_SLOW_DURATION seconds. */
  method Thaw(m: Monster)
    modifies m
    ensures m.View() == Thawed(old(m.View()))
  {
    if !m.dead {
      m.speed := m.originalSpeed;
      m.slowed := false;
    }
  }

  /** A frost nova's effect on every monster, in list order. */
  function FrostAll(vs: seq<MonsterView>, px: real, py: real, pz: real): (ws: seq<MonsterView>)
    ensures |ws| == |vs| && forall i :: 0 <= i < |vs| ==> ws[i] == Frosted(vs[i], px, py, pz)
  {
    seq(|vs|, i requires 0 <= i < |vs| => Frosted(vs[i], px, py, pz))
  }

  /** The monsters after the frost nova has reached the first k of them. */
  function FrostUpTo(vs: seq<MonsterView>, px: real, py: real, pz: real, k: nat): (ws: seq<MonsterView>)
    ensures |ws| == |vs|
  {
    seq(|vs|, i requires 0 <= i < |vs| => if i < k then Frosted(vs[i], px, py, pz) else vs[i])
  }

  /** Reaching one more monster changes that monster alone; reaching all of them is FrostAll. */
  lemma FrostUpToNext(vs: seq<MonsterView>, px: real, py: real, pz: real, k: nat)
    requires k < |vs|
    ensures FrostUpTo(vs, px, py, pz, 0) == vs
    ensures FrostUpTo(vs, px, py, pz, k + 1) == FrostUpTo(vs, px, py, pz, k)[k := Frosted(vs[k], px, py, pz)]
    ensures FrostUpTo(vs, px, py, pz, k)[k] == vs[k]
    ensures FrostUpTo(vs, px, py, pz, |vs|) == FrostAll(vs, px, py, pz)
  {
  }

  /** The indices of the monsters the nova catches among the first k, in order: updateFrostNova's monstersInRange. */
  function Caught(vs: seq<MonsterView>, px: real, py: real, pz: real, k: nat): (r: seq<nat>)
    requires k <= |vs|
    ensures forall i :: 0 <= i < |r| ==> r[i] < k && InFrost(vs[r[i]], px, py, pz)
    ensures forall i :: 0 <= i < k && InFrost(vs[i], px, py, pz) ==> i in r
    decreases k
  {
    if k == 0 then [] else Caught(vs, px, py, pz, k - 1) + (if InFrost(vs[k - 1], px, py, pz) then [k - 1] else [])
  }

  /** Monster lists that agree off two hit lists agree off any list holding both. */
  lemma AgreeOffBoth(a: seq<MonsterView>, b: seq<MonsterView>, c: seq<MonsterView>,
                     h1: seq<nat>, h2: seq<nat>, hit: seq<nat>)
    requires AgreeOffHit(a, b, h1) && AgreeOffHit(b, c, h2)
    requires forall x :: x in h1 || x in h2 ==> x in hit
    ensures AgreeOffHit(a, c, hit)
  {
  }

  /** After the first strike and the chain so far, the monsters differ from the original ones only at monsters hit. */
  lemma AgreeSinceStrike(ws: seq<MonsterView>, vs1: seq<MonsterView>, vs: seq<MonsterView>, target: nat, hit: seq<nat>)
    requires hit != [] && hit[0] == target && target < |vs|
    requires vs1 == vs[target := Struck(vs[target], LIGHTNING_DAMAGE)] && AgreeOffHit(ws, vs1, hit[1..])
    ensures AgreeOffHit(ws, vs, hit)
  {
    forall i | 0 <= i < |vs| && i !in hit
      ensures ws[i] == vs[i]
    {
      assert hit == [hit[0]] + hit[1..];
    }
  }

  /** A jump the search finds moves the chain on by one monster and one try. */
  lemma ChainAdvance(vs: seq<MonsterView>, hit: seq<nat>, steps: nat, j: nat)
    requires hit != [] && Inside(hit, |vs|) && steps > 0
    requires Nearest(vs, hit, vs[hit[|hit| - 1]].x, vs[hit[|hit| - 1]].y, vs[hit[|hit| - 1]].z,
                     Some(LIGHTNING_CHAIN_RANGE), |vs|) == Some(j)
    ensures Inside(hit + [j], |vs|)
    ensures ChainTargets(vs, hit + [j], steps - 1) == ChainTargets(vs, hit, steps)
  {
  }

  /** One more blow, on monster j, extends the blows in turn. */
  lemma StrikeInTurnNext(vs: seq<MonsterView>, s: State, order: Shuffle, hit: seq<nat>, j: nat, amount: real)
    requires hit != [] && Inside(hit, |vs|) && j < |vs|
    ensures Inside((hit + [j])[1..], |vs|) && Inside(hit[1..], |vs|)
    ensures var p := StrikeInTurn(vs, s, order, hit[1..], amount);
      var q := StrikeInTurn(vs, s, order, (hit + [j])[1..], amount);
      q.0 == p.0[j := Struck(p.0[j], amount)] && q.1 == StoreAfterBlow(p.0[j], amount, p.1, order)
  {
    assert (hit + [j])[1..] == hit[1..] + [j];
    assert (hit[1..] + [j])[..|hit| - 1] == hit[1..];
  }

  /** A cooldown that was never set reads as 0. */
  function CooldownOf(cooldowns: map<string, real>, id: string): real {
    if id in cooldowns then cooldowns[id] else 0.0
  }

  class AutoSkillManager {
    var cooldowns: map<string, real>
    var orbitals: seq<Orb>
    var spinningBlades: seq<Orb>
    var projectiles: seq<Projectile>
    var poisonTickTimer: real
    var regenTimer: real

    /**
     * Rings are absent or complete and rest at most their reset, and both tick timers stay
     * below their period.
     */
    ghost predicate Valid()
      reads this
    {
      && RingOk(orbitals, ORBITAL_COUNT, ORBITAL_HIT_RESET)
      && RingOk(spinningBlades, BLADES_COUNT, BLADES_HIT_RESET)
      && 0.0 <= poisonTickTimer < POISON_TICK_RATE
      && 0.0 <= regenTimer < REGEN_PERIOD
    }

    constructor ()
      ensures Valid() && cooldowns == map[] && orbitals == [] && spinningBlades == [] && projectiles == []
      ensures poisonTickTimer == 0.0 && regenTimer == 0.0
    {
      cooldowns := map[];
      orbitals := [];
      spinningBlades := [];
      projectiles := [];
      poisonTickTimer := 0.0;
      regenTimer := 0.0;
    }


    /** One monster meeting every member of the ring, in order. */
    static method MeetRing(m: Monster, spots: seq<(real, real)>, cds0: seq<real>, damage: real, reset: real,
                           reach: real, s: State, order: Shuffle) returns (cds: seq<real>, t: State)
      requires |spots| == |cds0|
      modifies m
      ensures (m.View(), cds, t) == Pass(old(m.View()), spots, cds0, damage, reset, reach, s, order, |spots|)
    {
      ghost var v := m.View();
      cds, t := cds0, s;
      for j := 0 to |spots|
        invariant (m.View(), cds, t) == Pass(v, spots, cds0, damage, reset, reach, s, order, j)
      {
        if Touches(spots[j], m.View(), reach) && cds[j] <= 0.0 {
          t := m.TakeDamage(damage, t, order);
          cds := cds[j := reset];
        }
      }
    }

    /** The ring pass: every monster alive at its turn meets every member, in order. */
    static method SweepRing(ms: seq<Monster>, spots: seq<(real, real)>, cds0: seq<real>, damage: real, reset: real,
                            reach: real, s: State, order: Shuffle) returns (cds: seq<real>, t: State)
      requires Distinct(ms) && |spots| == |cds0|
      modifies ms
      ensures (Views(ms), cds, t) == Sweep(old(Views(ms)), spots, cds0, damage, reset, reach, s, order, |ms|)
    {
      ghost var vs := Views(ms);
      cds, t := cds0, s;
      for i := 0 to |ms|
        invariant (Views(ms), cds, t) == Sweep(vs, spots, cds0, damage, reset, reach, s, order, i)
      {
        if ms[i].dead {
          continue;
        }
        ghost var before := Views(ms);
        cds, t := MeetRing(ms[i], spots, cds, damage, reset, reach, t, order);
        assert Views(ms) == before[i := ms[i].View()];
      }
    }

    /** One frame of a ring: create it if absent, turn it, sweep it over the monsters, count its cooldowns down. */
    static method TurnRing(ring: seq<Orb>, count: nat, speed: real, radius: real, damage: real, reset: real,
                           reach: real, delta: real, px: real, pz: real, ms: seq<Monster>, s: State, order: Shuffle,
                           cos: real -> real, sin: real -> real) returns (next: seq<Orb>, t: State)
      requires Distinct(ms)
      modifies ms
      ensures (next, Views(ms), t) ==
        RingFrame(ring, count, speed, radius, damage, reset, reach, delta, px, pz, old(Views(ms)), s, order, cos, sin)
    {
      var placed := Turned(if ring == [] then NewRing(count) else ring, speed, delta);
      var cds;
      cds, t := SweepRing(ms, Spots(placed, px, pz, radius, cos, sin), Cooldowns(placed), damage, reset, reach, s, order);
      next := Cooled(placed, cds, delta);
    }

    /** updateOrbital: two orbs 2.5 from the player, each striking for 8 and resting 0.5 seconds. */
    method UpdateOrbital(delta: real, px: real, pz: real, ms: seq<Monster>, s: State, order: Shuffle,
                         cos: real -> real, sin: real -> real) returns (t: State)
      requires Distinct(ms)
      modifies this, ms
      ensures (orbitals, Views(ms), t) ==
        RingFrame(old(orbitals), ORBITAL_COUNT, ORBITAL_SPEED, ORBITAL_RADIUS, ORBITAL_DAMAGE, ORBITAL_HIT_RESET,
                  ORBITAL_REACH, delta, px, pz, old(Views(ms)), s, order, cos, sin)
      ensures cooldowns == old(cooldowns) && spinningBlades == old(spinningBlades) && projectiles == old(projectiles)
      ensures poisonTickTimer == old(poisonTickTimer) && regenTimer == old(regenTimer)
    {
      orbitals, t := TurnRing(orbitals, ORBITAL_COUNT, ORBITAL_SPEED, ORBITAL_RADIUS, ORBITAL_DAMAGE, ORBITAL_HIT_RESET,
                              ORBITAL_REACH, delta, px, pz, ms, s, order, cos, sin);
    }

    /** updateSpinningBlades: three blades 3.5 from the player, each striking for 6 and resting 0.3 seconds. */
    method UpdateSpinningBlades(delta: real, px: real, pz: real, ms: seq<Monster>, s: State, order: Shuffle,
                                cos: real -> real, sin: real -> real) returns (t: State)
      requires Distinct(ms)
      modifies this, ms
      ensures (spinningBlades, Views(ms), t) ==
        RingFrame(old(spinningBlades), BLADES_COUNT, BLADES_SPEED, BLADES_RADIUS, BLADES_DAMAGE, BLADES_HIT_RESET,
                  BLADES_REACH, delta, px, pz, old(Views(ms)), s, order, cos, sin)
      ensures cooldowns == old(cooldowns) && orbitals == old(orbitals) && projectiles == old(projectiles)
      ensures poisonTickTimer == old(poisonTickTimer) && regenTimer == old(regenTimer)
    {
      spinningBlades, t := TurnRing(spinningBlades, BLADES_COUNT, BLADES_SPEED, BLADES_RADIUS, BLADES_DAMAGE,
                                    BLADES_HIT_RESET, BLADES_REACH, delta, px, pz, ms, s, order, cos, sin);
    }

    /**
     * updateFireball: the cooldown counts down; once it is out and there are monsters, a fireball
     * flies at the nearest living monster if it is within range, and only then does the cooldown
     * restart.
     */
    method UpdateFireball(delta: real, px: real, py: real, pz: real, ms: seq<Monster>, root: real -> real)
      modifies this
      ensures var cd := CooldownOf(old(cooldowns), FIREBALL) - delta;
        var aim := FireballTarget(Views(ms), px, py, pz);
        if cd <= 0.0 && aim.Some? then
          && projectiles == old(projectiles) + [Shot(px, pz, ms[aim.value].x, ms[aim.value].z, root)]
          && cooldowns == old(cooldowns)[FIREBALL := FIREBALL_COOLDOWN]
        else projectiles == old(projectiles) && cooldowns == old(cooldowns)[FIREBALL := cd]
      ensures orbitals == old(orbitals) && spinningBlades == old(spinningBlades)
      ensures poisonTickTimer == old(poisonTickTimer) && regenTimer == old(regenTimer)
    {
      var cd := CooldownOf(cooldowns, FIREBALL) - delta;
      var aim: Option<nat> := None;
      if cd <= 0.0 {
        aim := Aim(ms, px, py, pz);
      }
      if aim.Some? {
        var m := ms[aim.value];
        projectiles := projectiles + [Shot(px, pz, m.x, m.z, root)];
      }
      cooldowns := cooldowns[FIREBALL := if aim.Some? then FIREBALL_COOLDOWN else cd];
    }

    /** The nearest-monster search of updateFireball, skipped when there are no monsters. */
    static method Aim(ms: seq<Monster>, px: real, py: real, pz: real) returns (aim: Option<nat>)
      ensures aim == FireballTarget(Views(ms), px, py, pz)
    {
      aim := None;
      if |ms| > 0 {
        var nearest := FindNearest(ms, [], px, py, pz, None);
        if nearest.Some? && Within(Dist2(px, py, pz, ms[nearest.value].x, ms[nearest.value].y, ms[nearest.value].z), FIREBALL_RANGE) {
          aim := nearest;
        }
      }
    }

    /**
     * strikeLightning on ms[target]: full damage to it, then the chain, each jump found by the
     * same nearest-candidate search over the monsters as they now are.
     */
    static method StrikeLightning(ms: seq<Monster>, target: nat, s: State, order: Shuffle)
      returns (t: State, hit: seq<nat>)
      requires Distinct(ms) && target < |ms|
      modifies ms
      ensures Views(ms) == Lightning(old(Views(ms)), target, s, order).0
      ensures t == Lightning(old(Views(ms)), target, s, order).1
      ensures hit == Lightning(old(Views(ms)), target, s, order).2
    {
      ghost var vs := Views(ms);
      t := StrikeOne(ms, target, LIGHTNING_DAMAGE, s, order);
      t, hit := Chain(ms, vs, target, t, order);
    }

    /** The chain after the first strike: up to LIGHTNING_CHAIN_COUNT - 1 jumps, in order. */
    static method Chain(ms: seq<Monster>, ghost vs: seq<MonsterView>, target: nat, t0: State, order: Shuffle)
      returns (t: State, hit: seq<nat>)
      requires Distinct(ms) && target < |vs| == |ms|
      requires Views(ms) == vs[target := Struck(vs[target], LIGHTNING_DAMAGE)]
      modifies ms
      ensures hit == ChainTargets(vs, [target], LIGHTNING_CHAIN_COUNT - 1)
      ensures Views(ms) == StrikeInTurn(old(Views(ms)), t0, order, hit[1..], CHAIN_DAMAGE).0
      ensures t == StrikeInTurn(old(Views(ms)), t0, order, hit[1..], CHAIN_DAMAGE).1
    {
      ghost var vs1 := Views(ms);
      t := t0;
      hit := [target];
      var lx, ly, lz := ms[target].x, ms[target].y, ms[target].z;
      var i := 1;
      while i < LIGHTNING_CHAIN_COUNT
        invariant 1 <= i <= LIGHTNING_CHAIN_COUNT && Inside(hit, |ms|) && hit != [] && hit[0] == target
        invariant Inside(hit[1..], |ms|)
        invariant ChainTargets(vs, hit, LIGHTNING_CHAIN_COUNT - i) == ChainTargets(vs, [target], LIGHTNING_CHAIN_COUNT - 1)
        invariant Views(ms) == StrikeInTurn(vs1, t0, order, hit[1..], CHAIN_DAMAGE).0
        invariant t == StrikeInTurn(vs1, t0, order, hit[1..], CHAIN_DAMAGE).1
        invariant lx == vs[hit[|hit| - 1]].x && ly == vs[hit[|hit| - 1]].y && lz == vs[hit[|hit| - 1]].z
      {
        var found;
        found, t, hit, lx, ly, lz := ChainStep(ms, vs, vs1, t0, target, hit, lx, ly, lz, t, order, LIGHTNING_CHAIN_COUNT - i);
        if !found {
          break;
        }
        i := i + 1;
      }
    }

    /**
     * One jump of the chain: the nearest candidate to the last monster hit, if any, takes
     * CHAIN_DAMAGE; the search over the monsters as they now are finds the jump ChainTargets
     * predicts from the monsters as they were.
     */
    static method ChainStep(ms: seq<Monster>, ghost vs: seq<MonsterView>, ghost vs1: seq<MonsterView>, ghost s1: State,
                            target: nat, hit: seq<nat>, lx: real, ly: real, lz: real, t0: State, order: Shuffle,
                            ghost steps: nat)
      returns (found: bool, t: State, hit': seq<nat>, lx': real, ly': real, lz': real)
      requires Distinct(ms) && target < |vs| == |ms| == |vs1| && steps > 0
      requires hit != [] && Inside(hit, |ms|) && Inside(hit[1..], |ms|) && hit[0] == target
      requires vs1 == vs[target := Struck(vs[target], LIGHTNING_DAMAGE)]
      requires Views(ms) == StrikeInTurn(vs1, s1, order, hit[1..], CHAIN_DAMAGE).0
      requires t0 == StrikeInTurn(vs1, s1, order, hit[1..], CHAIN_DAMAGE).1
      requires lx == vs[hit[|hit| - 1]].x && ly == vs[hit[|hit| - 1]].y && lz == vs[hit[|hit| - 1]].z
      modifies ms
      ensures hit' != [] && Inside(hit', |ms|) && Inside(hit'[1..], |ms|) && hit'[0] == target
      ensures !found ==> hit' == hit && ChainTargets(vs, hit, steps) == hit
      ensures found ==> ChainTargets(vs, hit', steps - 1) == ChainTargets(vs, hit, steps)
      ensures Views(ms) == StrikeInTurn(vs1, s1, order, hit'[1..], CHAIN_DAMAGE).0
      ensures t == StrikeInTurn(vs1, s1, order, hit'[1..], CHAIN_DAMAGE).1
      ensures lx' == vs[hit'[|hit'| - 1]].x && ly' == vs[hit'[|hit'| - 1]].y && lz' == vs[hit'[|hit'| - 1]].z
    {
      AgreeSinceStrike(Views(ms), vs1, vs, target, hit);
      NearestIgnoresHit(Views(ms), vs, hit, lx, ly, lz, Some(LIGHTNING_CHAIN_RANGE), |ms|);
      var next := FindNearest(ms, hit, lx, ly, lz, Some(LIGHTNING_CHAIN_RANGE));
      found := next.Some?;
      if found {
        t, hit', lx', ly', lz' := JumpTo(ms, vs, vs1, s1, target, hit, next.value, t0, order, steps);
      } else {
        t, hit', lx', ly', lz' := t0, hit, lx, ly, lz;
      }
    }

    /** The chain jumps to monster j, the one the search found: it takes CHAIN_DAMAGE and becomes the last hit. */
    static method JumpTo(ms: seq<Monster>, ghost vs: seq<MonsterView>, ghost vs1: seq<MonsterView>, ghost s1: State,
                         target: nat, hit: seq<nat>, j: nat, t0: State, order: Shuffle, ghost steps: nat)
      returns (t: State, hit': seq<nat>, lx': real, ly': real, lz': real)
      requires Distinct(ms) && target < |vs| == |ms| == |vs1| && steps > 0
      requires hit != [] && Inside(hit, |ms|) && Inside(hit[1..], |ms|) && hit[0] == target
      requires Nearest(vs, hit, vs[hit[|hit| - 1]].x, vs[hit[|hit| - 1]].y, vs[hit[|hit| - 1]].z,
                       Some(LIGHTNING_CHAIN_RANGE), |vs|) == Some(j)
      requires AgreeOffHit(Views(ms), vs, hit)
      requires Views(ms) == StrikeInTurn(vs1, s1, order, hit[1..], CHAIN_DAMAGE).0
      requires t0 == StrikeInTurn(vs1, s1, order, hit[1..], CHAIN_DAMAGE).1
      modifies ms
      ensures hit' == hit + [j] && Inside(hit', |ms|) && Inside(hit'[1..], |ms|)
      ensures ChainTargets(vs, hit', steps - 1) == ChainTargets(vs, hit, steps)
      ensures Views(ms) == StrikeInTurn(vs1, s1, order, hit'[1..], CHAIN_DAMAGE).0
      ensures t == StrikeInTurn(vs1, s1, order, hit'[1..], CHAIN_DAMAGE).1
      ensures lx' == vs[j].x && ly' == vs[j].y && lz' == vs[j].z
    {
      ChainAdvance(vs, hit, steps, j);
      ghost var before := Views(ms);
      assert before[j].x == vs[j].x && before[j].y == vs[j].y && before[j].z == vs[j].z;
      t := StrikeOne(ms, j, CHAIN_DAMAGE, t0, order);
      StrikeInTurnNext(vs1, s1, order, hit, j, CHAIN_DAMAGE);
      hit' := hit + [j];
      assert hit'[1..] == (hit + [j])[1..];
      assert ms[j].View() == Struck(before[j], CHAIN_DAMAGE);
      lx', ly', lz' := ms[j].x, ms[j].y, ms[j].z;
    }

    /** Picking the target among the living monsters and striking it; `fired` says whether there was one. */
    static method Zap(ms: seq<Monster>, s: State, order: Shuffle, draw: real) returns (t: State, fired: bool)
      requires Distinct(ms) && 0.0 <= draw < 1.0
      modifies ms
      ensures Views(ms) == LightningTurn(old(Views(ms)), s, order, draw).0
      ensures t == LightningTurn(old(Views(ms)), s, order, draw).1
      ensures fired == LightningTurn(old(Views(ms)), s, order, draw).2
    {
      t, fired := s, false;
      var alive := AliveIndices(Views(ms), |ms|);
      if |alive| > 0 {
        var hit;
        t, hit := StrikeLightning(ms, alive[PickIndex(|alive|, draw)], s, order);
        fired := true;
      }
    }

    /**
     * updateLightning: the cooldown counts down; once it is out and there are monsters, a
     * living monster drawn with `draw` (Math.random) is struck and the chain runs, and only
     * when that happened does the cooldown restart.
     */
    method UpdateLightning(delta: real, ms: seq<Monster>, s: State, order: Shuffle, draw: real) returns (t: State)
      requires Distinct(ms) && 0.0 <= draw < 1.0
      modifies this, ms
      ensures var cd := CooldownOf(old(cooldowns), LIGHTNING) - delta;
        cd > 0.0 ==> Views(ms) == old(Views(ms)) && t == s && cooldowns == old(cooldowns)[LIGHTNING := cd]
      ensures CooldownOf(old(cooldowns), LIGHTNING) - delta <= 0.0 ==>
        Views(ms) == LightningTurn(old(Views(ms)), s, order, draw).0 && t == LightningTurn(old(Views(ms)), s, order, draw).1
      ensures var cd := CooldownOf(old(cooldowns), LIGHTNING) - delta;
        cd <= 0.0 ==>
          cooldowns == old(cooldowns)[LIGHTNING := if LightningTurn(old(Views(ms)), s, order, draw).2 then LIGHTNING_COOLDOWN else cd]
      ensures orbitals == old(orbitals) && spinningBlades == old(spinningBlades) && projectiles == old(projectiles)
      ensures poisonTickTimer == old(poisonTickTimer) && regenTimer == old(regenTimer)
    {
      var cd := CooldownOf(cooldowns, LIGHTNING) - delta;
      var fired;
      t, fired := LightningStep(ms, s, order, draw, cd);
      cooldowns := cooldowns[LIGHTNING := if fired then LIGHTNING_COOLDOWN else cd];
    }

    /** The monster side of updateLightning once the cooldown `cd` is known. */
    static method LightningStep(ms: seq<Monster>, s: State, order: Shuffle, draw: real, cd: real)
      returns (t: State, fired: bool)
      requires Distinct(ms) && 0.0 <= draw < 1.0
      modifies ms
      ensures cd > 0.0 ==> !fired && Views(ms) == old(Views(ms)) && t == s
      ensures cd <= 0.0 ==> Views(ms) == LightningTurn(old(Views(ms)), s, order, draw).0
      ensures cd <= 0.0 ==> t == LightningTurn(old(Views(ms)), s, order, draw).1
      ensures cd <= 0.0 ==> fired == LightningTurn(old(Views(ms)), s, order, draw).2
    {
      t, fired := s, false;
      if cd <= 0.0 && |ms| > 0 {
        t, fired := Zap(ms, s, order, draw);
      } else if cd <= 0.0 {
        assert AliveIndices(Views(ms), |ms|) == [];
      }
    }

    /**
     * updatePoisonAura: the tick timer runs; when it reaches the tick rate it restarts at 0 and
     * every monster alive and within the aura takes the poison damage. A monster's blow depends
     * only on its own state, which the blows before it in the pass do not touch, so the blows
     * can be read off the list as it was.
     */
    method UpdatePoisonAura(delta: real, px: real, py: real, pz: real, ms: seq<Monster>, s: State, order: Shuffle)
      returns (t: State)
      requires Distinct(ms)
      modifies this, ms
      ensures old(poisonTickTimer) + delta >= POISON_TICK_RATE ==>
        && poisonTickTimer == 0.0
        && (Views(ms), t) == ApplyBlows(old(Views(ms)), PoisonBlows(old(Views(ms)), px, py, pz), s, order, |ms|)
      ensures old(poisonTickTimer) + delta < POISON_TICK_RATE ==>
        poisonTickTimer == old(poisonTickTimer) + delta && Views(ms) == old(Views(ms)) && t == s
      ensures cooldowns == old(cooldowns) && orbitals == old(orbitals) && spinningBlades == old(spinningBlades)
      ensures projectiles == old(projectiles) && regenTimer == old(regenTimer)
    {
      t := s;
      poisonTickTimer := poisonTickTimer + delta;
      if poisonTickTimer >= POISON_TICK_RATE {
        poisonTickTimer := 0.0;
        t := StrikeAll(ms, PoisonBlows(Views(ms), px, py, pz), s, order);
      }
    }

    /** The frost nova's pass over the monsters it caught: damage, then the slow, one monster at a time. */
    static method FrostPass(ms: seq<Monster>, px: real, py: real, pz: real, s: State, order: Shuffle) returns (t: State)
      requires Distinct(ms)
      modifies ms
      ensures Views(ms) == FrostAll(old(Views(ms)), px, py, pz)
      ensures t == ApplyBlows(old(Views(ms)), FrostBlows(old(Views(ms)), px, py, pz), s, order, |ms|).1
    {
      ghost var vs := Views(ms);
      var caught := FrostBlows(Views(ms), px, py, pz);
      t := s;
      for i := 0 to |ms|
        invariant Views(ms) == FrostUpTo(vs, px, py, pz, i)
        invariant t == ApplyBlows(vs, caught, s, order, i).1
      {
        ApplyBlowsNext(vs, caught, s, order, i);
        FrostUpToNext(vs, px, py, pz, i);
        if caught[i].Hit? {
          t := StrikeOne(ms, i, FROST_DAMAGE, t, order);
          ChillOne(ms, i, FROST_SLOW_AMOUNT);
        }
      }
    }

    /**
     * updateFrostNova: the cooldown counts down; once it is out and some monster is alive within
     * the nova, every such monster takes the frost damage and the slow, and only then does the
     * cooldown restart.
     */
    method UpdateFrostNova(delta: real, px: real, py: real, pz: real, ms: seq<Monster>, s: State, order: Shuffle)
      returns (t: State)
      requires Distinct(ms)
      modifies this, ms
      ensures var cd := CooldownOf(old(cooldowns), FROST_NOVA) - delta;
        var vs := old(Views(ms));
        if cd <= 0.0 && |Caught(vs, px, py, pz, |vs|)| > 0 then
          && Views(ms) == FrostAll(vs, px, py, pz)
          && t == ApplyBlows(vs, FrostBlows(vs, px, py, pz), s, order, |vs|).1
          && cooldowns == old(cooldowns)[FROST_NOVA := FROST_COOLDOWN]
        else Views(ms) == vs && t == s && cooldowns == old(cooldowns)[FROST_NOVA := cd]
      ensures orbitals == old(orbitals) && spinningBlades == old(spinningBlades) && projectiles == old(projectiles)
      ensures poisonTickTimer == old(poisonTickTimer) && regenTimer == old(regenTimer)
    {
      t := s;
      var cd := CooldownOf(cooldowns, FROST_NOVA) - delta;
      var fired := false;
      if cd <= 0.0 {
        var inRange := Caught(Views(ms), px, py, pz, |ms|);
        if |inRange| > 0 {
          t := FrostPass(ms, px, py, pz, s, order);
          fired := true;
        }
      }
      cooldowns := cooldowns[FROST_NOVA := if fired then FROST_COOLDOWN else cd];
    }

    /** updatePassives: with regeneration, the timer runs and each time it reaches a second it restarts and heals. */
    method UpdatePassives(delta: real, passives: set<string>, s: State) returns (t: State)
      modifies this
      ensures REGENERATION !in passives ==> regenTimer == old(regenTimer) && t == s
      ensures REGENERATION in passives && old(regenTimer) + delta >= REGEN_PERIOD ==>
        regenTimer == 0.0 && t == Heal(s, REGENERATION_VALUE)
      ensures REGENERATION in passives && old(regenTimer) + delta < REGEN_PERIOD ==>
        regenTimer == old(regenTimer) + delta && t == s
      ensures cooldowns == old(cooldowns) && orbitals == old(orbitals) && spinningBlades == old(spinningBlades)
      ensures projectiles == old(projectiles) && poisonTickTimer == old(poisonTickTimer)
    {
      t := s;
      if REGENERATION in passives {
        regenTimer := regenTimer + delta;
        if regenTimer >= REGEN_PERIOD {
          regenTimer := 0.0;
          t := Heal(s, REGENERATION_VALUE);
        }
      }
    }

    /** The projectile loop of updateProjectiles, over the projectile list as a value. */
    static method FlyProjectiles(ps: seq<Projectile>, delta: real, ms: seq<Monster>, s: State, order: Shuffle)
      returns (qs: seq<Projectile>, t: State)
      requires Distinct(ms)
      modifies ms
      ensures (qs, Views(ms), t) == FlyAll(ps, delta, old(Views(ms)), s, order, |ps|)
    {
      ghost var vs := Views(ms);
      qs, t := ps, s;
      for k := 0 to |ps|
        invariant (qs, Views(ms), t) == FlyAll(ps, delta, vs, s, order, k)
      {
        var p := qs[k];
        if !p.dead {
          p := Moved(p, delta);
          if p.lifetime <= 0.0 {
            p := p.(dead := true);
          } else {
            ghost var before := Views(ms);
            ghost var t0, q := t, p;
            for j := 0 to |ms|
              invariant FirstInReach(before, q.x, q.z, j).None? ==> p == q && Views(ms) == before && t == t0
              invariant FirstInReach(before, q.x, q.z, j).Some? ==>
                var h := FirstInReach(before, q.x, q.z, j).value;
                && p == q.(dead := true)
                && Views(ms) == before[h := Struck(before[h], q.damage)]
                && t == StoreAfterBlow(before[h], q.damage, t0, order)
            {
              if ms[j].dead || p.dead {
                continue;
              }
              if Within(FlatDist2(p.x, p.z, ms[j].x, ms[j].z), PROJECTILE_REACH) {
                t := StrikeOne(ms, j, p.damage, t, order);
                p := p.(dead := true);
              }
            }
          }
        }
        qs := qs[k := p];
      }
    }

    /** updateProjectiles: every projectile flies, ages, expires or strikes, in list order. */
    method UpdateProjectiles(delta: real, ms: seq<Monster>, s: State, order: Shuffle) returns (t: State)
      requires Distinct(ms)
      modifies this, ms
      ensures (projectiles, Views(ms), t) == FlyAll(old(projectiles), delta, old(Views(ms)), s, order, |old(projectiles)|)
      ensures cooldowns == old(cooldowns) && orbitals == old(orbitals) && spinningBlades == old(spinningBlades)
      ensures poisonTickTimer == old(poisonTickTimer) && regenTimer == old(regenTimer)
    {
      projectiles, t := FlyProjectiles(projectiles, delta, ms, s, order);
    }

    /**
     * update: outside the playing phase nothing happens. Otherwise each auto skill the run has
     * runs in the order it was taken (`draws[k]` is the Math.random draw of the k-th, read only
     * by lightning), then the passives, then the projectiles, and dead projectiles are dropped.
     * `cos`, `sin` and `root` stand for Math.cos, Math.sin and Math.sqrt.
     */
    method Update(delta: real, s: State, px: real, py: real, pz: real, ms: seq<Monster>, order: Shuffle,
                  draws: seq<real>, cos: real -> real, sin: real -> real, root: real -> real) returns (t: State)
      requires Valid() && Distinct(ms) && delta >= 0.0
      requires |draws| == |s.run.autoSkills| && forall k :: 0 <= k < |draws| ==> 0.0 <= draws[k] < 1.0
      modifies this, ms
      ensures Valid()
      ensures s.phase != Playing ==> t == s && Views(ms) == old(Views(ms)) && unchanged(this)
      ensures s.phase == Playing ==> forall i :: 0 <= i < |projectiles| ==> !projectiles[i].dead
    {
      t := s;
      if s.phase != Playing {
        return;
      }
      var skills, passives := s.run.autoSkills, s.run.passives;
      for k := 0 to |skills|
        invariant Valid()
      {
        var id := skills[k];
        if id == ORBITAL {
          RingFrameKeepsRing(orbitals, ORBITAL_COUNT, ORBITAL_SPEED, ORBITAL_RADIUS, ORBITAL_DAMAGE, ORBITAL_HIT_RESET,
                             ORBITAL_REACH, delta, px, pz, Views(ms), t, order, cos, sin);
          t := UpdateOrbital(delta, px, pz, ms, t, order, cos, sin);
        } else if id == FIREBALL {
          UpdateFireball(delta, px, py, pz, ms, root);
        } else if id == LIGHTNING {
          t := UpdateLightning(delta, ms, t, order, draws[k]);
        } else if id == POISON_AURA {
          t := UpdatePoisonAura(delta, px, py, pz, ms, t, order);
        } else if id == FROST_NOVA {
          t := UpdateFrostNova(delta, px, py, pz, ms, t, order);
        } else if id == SPINNING_BLADES {
          RingFrameKeepsRing(spinningBlades, BLADES_COUNT, BLADES_SPEED, BLADES_RADIUS, BLADES_DAMAGE, BLADES_HIT_RESET,
                             BLADES_REACH, delta, px, pz, Views(ms), t, order, cos, sin);
          t := UpdateSpinningBlades(delta, px, pz, ms, t, order, cos, sin);
        }
      }
      t := UpdatePassives(delta, passives, t);
      t := UpdateProjectiles(delta, ms, t, order);
      projectiles := LiveProjectiles(projectiles);
    }

    /** clearAll: no rings, no projectiles, no cooldowns, both timers back at 0. */
    method ClearAll()
      modifies this
      ensures Valid() && cooldowns == map[] && orbitals == [] && spinningBlades == [] && projectiles == []
      ensures poisonTickTimer == 0.0 && regenTimer == 0.0
    {
      cooldowns := map[];
      orbitals := [];
      spinningBlades := [];
      projectiles := [];
      poisonTickTimer := 0.0;
      regenTimer := 0.0;
    }
  }
}
