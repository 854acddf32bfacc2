/**
 * The player agent (src/game/Player.js): movement with clamping and obstacle push-out, the melee
 * attack, the two active skills and the dash endpoint, and the per-frame timers. The store is
 * passed in and returned as a value; the monsters are the shared Monster objects.
 */
module Players {
  import opened Basics
  import opened Config
  import opened GameStore
  import opened WorldMap
  import opened Monsters

  // ---------------------------------------------------------------- movement

  /** The first half of move: one step of PLAYER_SPEED * spd * delta along the normalised input, clamped to the map. */
  function StepTo(x: real, z: real, mx: real, mz: real, delta: real, spd: real, root: real -> real): (c: (real, real))
    requires root(mx * mx + mz * mz) != 0.0
    ensures OnMap(c.0, c.1)
  {
    var len := root(mx * mx + mz * mz);
    (ClampToMap(x + mx / len * (PLAYER_SPEED * spd) * delta), ClampToMap(z + mz / len * (PLAYER_SPEED * spd) * delta))
  }

  /**
   * Where move puts the player: the clamped step, pushed out of the first obstacle it overlaps
   * (radius 0.5) and clamped again. `root` stands for Math.sqrt; the jitter draws are resolveCollision's.
   */
  function MoveTo(obstacles: seq<Obstacle>, x: real, z: real, mx: real, mz: real, delta: real, spd: real,
                  root: real -> real, jitterX: real, jitterZ: real): (p: (real, real))
    requires root(mx * mx + mz * mz) != 0.0
    ensures OnMap(p.0, p.1)
    ensures !Blocked(obstacles, StepTo(x, z, mx, mz, delta, spd, root)) ==> p == StepTo(x, z, mx, mz, delta, spd, root)
  {
    var c := StepTo(x, z, mx, mz, delta, spd, root);
    var r := ResolveCollision(obstacles, c.0, c.1, 0.5, root, jitterX, jitterZ);
    if r.None? then c else (ClampToMap(r.value.0), ClampToMap(r.value.1))
  }

  /** A non-zero input has a non-zero length, so move never divides by zero. */
  lemma InputLength(mx: real, mz: real, root: real -> real)
    requires RootAt(root, mx * mx + mz * mz) && (mx != 0.0 || mz != 0.0)
    ensures root(mx * mx + mz * mz) > 0.0
  {
    PositiveSquareSum(mx, mz);
  }

  /** A square is never negative, and positive for a nonzero number. */
  lemma ProductSign(v: real)
    ensures v * v >= 0.0
    ensures v != 0.0 ==> v * v > 0.0
  {
    if v < 0.0 {
      assert v * v == (-v) * (-v);
    }
  }

  /** A nonzero input has a positive squared length. */
  lemma PositiveSquareSum(mx: real, mz: real)
    requires mx != 0.0 || mz != 0.0
    ensures mx * mx + mz * mz > 0.0
  {
    ProductSign(mx);
    ProductSign(mz);
  }

  /** The facing move records is a unit vector when `root` is exact. */
  lemma {:induction false} FacingIsUnit(mx: real, mz: real, root: real -> real)
    requires RootAt(root, mx * mx + mz * mz) && (mx != 0.0 || mz != 0.0)
    ensures var len := root(mx * mx + mz * mz);
      len > 0.0 && (mx / len) * (mx / len) + (mz / len) * (mz / len) == 1.0
  {
    InputLength(mx, mz, root);
    var len := root(mx * mx + mz * mz);
    var a, b := mx / len, mz / len;
    assert a * len == mx && b * len == mz;
    assert (a * a + b * b) * (len * len) == mx * mx + mz * mz;
  }

  // ---------------------------------------------------------------- melee attack

  /** Berserk applies when it is owned and HP is below half of max HP. */
  predicate Berserk(stats: Stats, passives: set<string>) {
    BERSERK in passives && stats.maxHp != 0.0 && stats.hp / stats.maxHp < BERSERK_THRESHOLD
  }

  /** `atk * damageMultiplier`, raised by 30 % under berserk: the damage before any crit. */
  function BaseDamage(stats: Stats, passives: set<string>, multiplier: real): (d: real)
    ensures Berserk(stats, passives) ==> d == stats.atk * multiplier * (1.0 + BERSERK_VALUE)
    ensures !Berserk(stats, passives) ==> d == stats.atk * multiplier
  {
    var d := stats.atk * multiplier;
    if Berserk(stats, passives) then d * (1.0 + BERSERK_VALUE) else d
  }

  /** The damage of one melee hit: the base damage, multiplied by critDmg when the crit draw is below crit. */
  function HitDamage(stats: Stats, passives: set<string>, critDraw: real): (d: real)
    ensures critDraw < stats.crit ==> d == BaseDamage(stats, passives, 1.0) * stats.critDmg
    ensures critDraw >= stats.crit ==> d == BaseDamage(stats, passives, 1.0)
  {
    var d := BaseDamage(stats, passives, 1.0);
    if critDraw < stats.crit then d * stats.critDmg else d
  }

  /**
   * A monster the swing reaches: closer than ATTACK_RANGE and either in front (positive dot
   * product of the facing with the direction to it) or closer than 1.5. The facing has no height,
   * so the sign of the dot product with the unnormalised offset is the same.
   */
  predicate InSwing(v: MonsterView, px: real, py: real, pz: real, dirX: real, dirZ: real) {
    var d2 := Dist2(px, py, pz, v.x, v.y, v.z);
    Within(d2, ATTACK_RANGE) && (dirX * (v.x - px) + dirZ * (v.z - pz) > 0.0 || Within(d2, 1.5))
  }

  /** One strike: every living monster in the swing takes one hit, with crit draw roll(strike, index). */
  function AttackBlows(vs: seq<MonsterView>, px: real, py: real, pz: real, dirX: real, dirZ: real,
                       stats: Stats, passives: set<string>, roll: (nat, nat) -> real, strike: nat): (bs: seq<Blow>)
    ensures |bs| == |vs|
    ensures forall j :: 0 <= j < |vs| ==>
      bs[j] == if !vs[j].dead && InSwing(vs[j], px, py, pz, dirX, dirZ)
               then Hit(HitDamage(stats, passives, roll(strike, j))) else Miss
  {
    seq(|vs|, j requires 0 <= j < |vs| =>
      if !vs[j].dead && InSwing(vs[j], px, py, pz, dirX, dirZ) then Hit(HitDamage(stats, passives, roll(strike, j)))
      else Miss)
  }

  /** Strikes per attack: two with multi-strike, one otherwise. */
  function Strikes(upgrades: set<string>): (n: nat)
    ensures 1 <= n <= MULTI_STRIKE_COUNT
  {
    if MULTI_STRIKE in upgrades then MULTI_STRIKE_COUNT else 1
  }

  /** Lifesteal: when owned and damage was dealt, heal 5 % of it. */
  function Lifesteal(s: State, passives: set<string>, total: real): (t: State)
    ensures LIFESTEAL in passives && total > 0.0 ==> t == Heal(s, total * LIFESTEAL_VALUE)
    ensures !(LIFESTEAL in passives && total > 0.0) ==> t == s
  {
    if LIFESTEAL in passives && total > 0.0 then Heal(s, total * LIFESTEAL_VALUE) else s
  }

  /**
   * The monsters, the store and the damage total after the first n strikes of an attack; each
   * strike sees the monsters as the previous one left them.
   */
  function Swings(vs: seq<MonsterView>, s: State, px: real, py: real, pz: real, dirX: real, dirZ: real,
                  stats: Stats, passives: set<string>, roll: (nat, nat) -> real, order: Shuffle, n: nat)
    : (r: (seq<MonsterView>, State, real))
    ensures |r.0| == |vs|
    decreases n
  {
    if n == 0 then (vs, s, 0.0)
    else
      var prev := Swings(vs, s, px, py, pz, dirX, dirZ, stats, passives, roll, order, n - 1);
      var blows := AttackBlows(prev.0, px, py, pz, dirX, dirZ, stats, passives, roll, n - 1);
      var next := ApplyBlows(prev.0, blows, prev.1, order, |prev.0|);
      (next.0, next.1, prev.2 + TotalDamage(blows))
  }

  /** One more strike continues from where the previous strikes left the monsters and the store. */
  lemma SwingsNext(vs: seq<MonsterView>, s: State, px: real, py: real, pz: real, dirX: real, dirZ: real,
                   stats: Stats, passives: set<string>, roll: (nat, nat) -> real, order: Shuffle, n: nat,
                   ws: seq<MonsterView>, t: State, total: real)
    requires ws == Swings(vs, s, px, py, pz, dirX, dirZ, stats, passives, roll, order, n).0
    requires t == Swings(vs, s, px, py, pz, dirX, dirZ, stats, passives, roll, order, n).1
    requires total == Swings(vs, s, px, py, pz, dirX, dirZ, stats, passives, roll, order, n).2
    ensures var blows := AttackBlows(ws, px, py, pz, dirX, dirZ, stats, passives, roll, n);
      var next := ApplyBlows(ws, blows, t, order, |ws|);
      var r := Swings(vs, s, px, py, pz, dirX, dirZ, stats, passives, roll, order, n + 1);
      r.0 == next.0 && r.1 == next.1 && r.2 == total + TotalDamage(blows)
  {
  }

  /** What an attack does once the cooldown gate is open: the strikes, then lifesteal on their total. */
  function AttackOutcome(vs: seq<MonsterView>, s: State, px: real, py: real, pz: real, dirX: real, dirZ: real,
                         roll: (nat, nat) -> real, order: Shuffle): (r: (seq<MonsterView>, State))
    ensures |r.0| == |vs|
    ensures forall j :: 0 <= j < |vs| && (vs[j].dead || !InSwing(vs[j], px, py, pz, dirX, dirZ)) ==> r.0[j] == vs[j]
  {
    var n := Strikes(s.run.skillUpgrades);
    assert forall j :: 0 <= j < |vs| && (vs[j].dead || !InSwing(vs[j], px, py, pz, dirX, dirZ)) ==>
      Swings(vs, s, px, py, pz, dirX, dirZ, s.run.stats, s.run.passives, roll, order, n).0[j] == vs[j] by {
      forall j | 0 <= j < |vs| && (vs[j].dead || !InSwing(vs[j], px, py, pz, dirX, dirZ)) {
        SwingsSpare(vs, s, px, py, pz, dirX, dirZ, s.run.stats, s.run.passives, roll, order, n, j);
      }
    }
    var w := Swings(vs, s, px, py, pz, dirX, dirZ, s.run.stats, s.run.passives, roll, order, Strikes(s.run.skillUpgrades));
    (w.0, Lifesteal(w.1, s.run.passives, w.2))
  }

  /**
   * However many strikes, a monster the swing does not reach, or one already dead, comes out of
   * the attack exactly as it went in.
   */
  lemma {:induction false} SwingsSpare(vs: seq<MonsterView>, s: State, px: real, py: real, pz: real,
                                       dirX: real, dirZ: real, stats: Stats, passives: set<string>,
                                       roll: (nat, nat) -> real, order: Shuffle, n: nat, j: nat)
    requires j < |vs| && (vs[j].dead || !InSwing(vs[j], px, py, pz, dirX, dirZ))
    ensures Swings(vs, s, px, py, pz, dirX, dirZ, stats, passives, roll, order, n).0[j] == vs[j]
    decreases n
  {
    if n > 0 {
      SwingsSpare(vs, s, px, py, pz, dirX, dirZ, stats, passives, roll, order, n - 1, j);
      var prev := Swings(vs, s, px, py, pz, dirX, dirZ, stats, passives, roll, order, n - 1);
      var blows := AttackBlows(prev.0, px, py, pz, dirX, dirZ, stats, passives, roll, n - 1);
      ApplyBlowsLands(prev.0, blows, prev.1, order, |prev.0|);
    }
  }

  /** A monster the swing reaches that is alive takes exactly the first strike's hit, crit included. */
  lemma FirstStrikeLands(vs: seq<MonsterView>, s: State, px: real, py: real, pz: real,
                         dirX: real, dirZ: real, stats: Stats, passives: set<string>,
                         roll: (nat, nat) -> real, order: Shuffle, j: nat)
    requires j < |vs| && !vs[j].dead && InSwing(vs[j], px, py, pz, dirX, dirZ)
    ensures Swings(vs, s, px, py, pz, dirX, dirZ, stats, passives, roll, order, 1).0[j]
         == Struck(vs[j], HitDamage(stats, passives, roll(0, j)))
  {
    ApplyBlowsLands(vs, AttackBlows(vs, px, py, pz, dirX, dirZ, stats, passives, roll, 0), s, order, |vs|);
  }

  // ---------------------------------------------------------------- spin attack

  /** Spin radius: 3, plus 1 with spin master. */
  function SpinRadius(upgrades: set<string>): (r: real)
    ensures r == if SPIN_MASTER in upgrades then SPIN_RADIUS + SPIN_MASTER_RADIUS_BONUS else SPIN_RADIUS
  {
    if SPIN_MASTER in upgrades then SPIN_RADIUS + SPIN_MASTER_RADIUS_BONUS else SPIN_RADIUS
  }

  /** Spin damage: atk * 1.5, times 1.2 with spin master, times 1.3 under berserk. */
  function SpinDamage(stats: Stats, passives: set<string>, upgrades: set<string>): (d: real)
    ensures d == BaseDamage(stats, passives, if SPIN_MASTER in upgrades then SPIN_DAMAGE * (1.0 + SPIN_MASTER_DAMAGE_BONUS) else SPIN_DAMAGE)
  {
    var multiplier := if SPIN_MASTER in upgrades then SPIN_DAMAGE * (1.0 + SPIN_MASTER_DAMAGE_BONUS) else SPIN_DAMAGE;
    BaseDamage(stats, passives, multiplier)
  }

  /** The spin hits every living monster strictly inside the radius, each with the same damage. */
  function SpinBlows(vs: seq<MonsterView>, px: real, py: real, pz: real, radius: real, damage: real): (bs: seq<Blow>)
    ensures |bs| == |vs|
    ensures forall j :: 0 <= j < |vs| ==>
      bs[j] == if !vs[j].dead && Within(Dist2(px, py, pz, vs[j].x, vs[j].y, vs[j].z), radius) then Hit(damage) else Miss
  {
    seq(|vs|, j requires 0 <= j < |vs| =>
      if !vs[j].dead && Within(Dist2(px, py, pz, vs[j].x, vs[j].y, vs[j].z), radius) then Hit(damage) else Miss)
  }

  // ---------------------------------------------------------------- dash

  /** The dash target before obstacles: start + facing * distance, clamped to the map. */
  function DashTarget(x: real, z: real, dirX: real, dirZ: real, distance: real): (e: (real, real))
    ensures OnMap(e.0, e.1)
  {
    (ClampToMap(x + dirX * distance), ClampToMap(z + dirZ * distance))
  }

  /** Sample i of the 10 along the path from (sx, sz) to (ex, ez): fraction i / 10 of the way. */
  function Sample(sx: real, sz: real, ex: real, ez: real, i: nat): (real, real) {
    (sx + (ex - sx) * (i as real / 10.0), sz + (ez - sz) * (i as real / 10.0))
  }

  predicate Blocked(obstacles: seq<Obstacle>, p: (real, real)) {
    CheckCollision(obstacles, p.0, p.1, 0.5).Some?
  }

  /** The first of the samples i..10 that collides with an obstacle at radius 0.5. */
  function FirstBlocked(obstacles: seq<Obstacle>, sx: real, sz: real, ex: real, ez: real, i: nat): (r: Option<nat>)
    requires 1 <= i <= 11
    ensures r.Some? ==> i <= r.value <= 10 && Blocked(obstacles, Sample(sx, sz, ex, ez, r.value))
    ensures r.Some? ==> forall k :: i <= k < r.value ==> !Blocked(obstacles, Sample(sx, sz, ex, ez, k))
    ensures r.None? ==> forall k :: i <= k <= 10 ==> !Blocked(obstacles, Sample(sx, sz, ex, ez, k))
    decreases 11 - i
  {
    if i == 11 then None
    else if Blocked(obstacles, Sample(sx, sz, ex, ez, i)) then Some(i)
    else FirstBlocked(obstacles, sx, sz, ex, ez, i + 1)
  }

  /**
   * Where the dash ends: the target, or the sample before the first one that collides. Either way
   * the dash stops on its own path: the target, or one of the ten samples short of it.
   */
  function DashEnd(obstacles: seq<Obstacle>, x: real, z: real, dirX: real, dirZ: real, distance: real): (r: (real, real))
    ensures var e := DashTarget(x, z, dirX, dirZ, distance);
      r == e || exists k :: 0 <= k < 10 && r == Sample(x, z, e.0, e.1, k)
  {
    var e := DashTarget(x, z, dirX, dirZ, distance);
    match FirstBlocked(obstacles, x, z, e.0, e.1, 1)
    case None => e
    case Some(i) => assert 0 <= i - 1 < 10; Sample(x, z, e.0, e.1, i - 1)
  }

  /**
   * The dash ends on sample k of its path, every sample 1..k is clear of obstacles, and either k is
   * the last sample or sample k + 1 collides.
   */
  predicate StopsAtSample(obstacles: seq<Obstacle>, x: real, z: real, dirX: real, dirZ: real, distance: real, k: int) {
    var e := DashTarget(x, z, dirX, dirZ, distance);
    && 0 <= k <= 10
    && DashEnd(obstacles, x, z, dirX, dirZ, distance) == Sample(x, z, e.0, e.1, k)
    && (forall m :: 1 <= m <= k ==> !Blocked(obstacles, Sample(x, z, e.0, e.1, m)))
    && (k < 10 ==> Blocked(obstacles, Sample(x, z, e.0, e.1, k + 1)))
  }

  /** The dash stops one sample short of the first sampled collision, or at its target. */
  lemma DashStopsShort(obstacles: seq<Obstacle>, x: real, z: real, dirX: real, dirZ: real, distance: real)
    ensures exists k :: StopsAtSample(obstacles, x, z, dirX, dirZ, distance, k)
  {
    var e := DashTarget(x, z, dirX, dirZ, distance);
    match FirstBlocked(obstacles, x, z, e.0, e.1, 1)
    case None =>
      assert Sample(x, z, e.0, e.1, 10) == e;
      assert StopsAtSample(obstacles, x, z, dirX, dirZ, distance, 10);
    case Some(i) =>
      assert StopsAtSample(obstacles, x, z, dirX, dirZ, distance, i - 1);
  }

  /** A point a fraction t in [0, 1] of the way between two points of the map is on the map. */
  lemma BetweenOnMap(a: real, b: real, t: real)
    requires -HALF <= a <= HALF && -HALF <= b <= HALF && 0.0 <= t <= 1.0
    ensures -HALF <= a + (b - a) * t <= HALF
  {
    assert a + (b - a) * t == a * (1.0 - t) + b * t;
    NonNegProduct(a + HALF, 1.0 - t);
    NonNegProduct(HALF - a, 1.0 - t);
    NonNegProduct(b + HALF, t);
    NonNegProduct(HALF - b, t);
  }

  lemma NonNegProduct(u: real, v: real)
    requires u >= 0.0 && v >= 0.0
    ensures u * v >= 0.0
  {
  }

  /** Every sample of a path between two points of the map is on the map. */
  lemma SampleOnMap(sx: real, sz: real, ex: real, ez: real, k: nat)
    requires OnMap(sx, sz) && OnMap(ex, ez) && k <= 10
    ensures var p := Sample(sx, sz, ex, ez, k); OnMap(p.0, p.1)
  {
    var t := k as real / 10.0;
    BetweenOnMap(sx, ex, t);
    BetweenOnMap(sz, ez, t);
  }

  /** Starting on the map, the dash ends on the map. */
  lemma DashEndOnMap(obstacles: seq<Obstacle>, x: real, z: real, dirX: real, dirZ: real, distance: real)
    requires OnMap(x, z)
    ensures var p := DashEnd(obstacles, x, z, dirX, dirZ, distance); OnMap(p.0, p.1)
  {
    var e := DashTarget(x, z, dirX, dirZ, distance);
    DashStopsShort(obstacles, x, z, dirX, dirZ, distance);
    var k :| StopsAtSample(obstacles, x, z, dirX, dirZ, distance, k);
    SampleOnMap(x, z, e.0, e.1, k);
  }

  // ---------------------------------------------------------------- the player

  class Player {
    var x: real
    var y: real
    var z: real
    /** The facing; its y component is always 0. */
    var dirX: real
    var dirZ: real
    var attackTimer: real
    var invincible: bool
    var invincibleTimer: real
    /** The endpoint of a dash whose animation is still running; it lands there when the animation ends. */
    var dashLanding: Option<(real, real)>

    constructor ()
      ensures x == 0.0 && y == 0.0 && z == 0.0 && dirX == 0.0 && dirZ == -1.0
      ensures attackTimer == 0.0 && !invincible && invincibleTimer == 0.0 && dashLanding == None
    {
      x, y, z := 0.0, 0.0, 0.0;
      dirX, dirZ := 0.0, -1.0;
      attackTimer := 0.0;
      invincible := false;
      invincibleTimer := 0.0;
      dashLanding := None;
    }

    /** move: see MoveTo; a non-zero input also becomes the new facing. */
    method Move(mx: real, mz: real, delta: real, spd: real, obstacles: seq<Obstacle>,
                root: real -> real, jitterX: real, jitterZ: real)
      requires RootAt(root, mx * mx + mz * mz) && (mx != 0.0 || mz != 0.0)
      modifies this
      ensures root(mx * mx + mz * mz) > 0.0
      ensures (x, z) == MoveTo(obstacles, old(x), old(z), mx, mz, delta, spd, root, jitterX, jitterZ)
      ensures OnMap(x, z)
      ensures dirX == mx / root(mx * mx + mz * mz) && dirZ == mz / root(mx * mx + mz * mz)
      ensures y == old(y) && attackTimer == old(attackTimer) && invincible == old(invincible)
      ensures invincibleTimer == old(invincibleTimer) && dashLanding == old(dashLanding)
    {
      InputLength(mx, mz, root);
      var len := root(mx * mx + mz * mz);
      var nx, nz := mx / len, mz / len;
      var step := StepTo(x, z, mx, mz, delta, spd, root);
      var newX, newZ := step.0, step.1;
      var resolved := ResolveCollision(obstacles, newX, newZ, 0.5, root, jitterX, jitterZ);
      if resolved.Some? {
        newX := ClampToMap(resolved.value.0);
        newZ := ClampToMap(resolved.value.1);
      }
      x, z := newX, newZ;
      if mx != 0.0 || mz != 0.0 {
        dirX, dirZ := nx, nz;
      }
    }

    /**
     * attack: nothing while the attack timer runs; otherwise the timer restarts at ATTACK_COOLDOWN,
     * the strikes land as AttackOutcome says and lifesteal heals from their total.
     */
    method Attack(s: State, ms: seq<Monster>, roll: (nat, nat) -> real, order: Shuffle) returns (t: State)
      requires Distinct(ms)
      modifies this, ms
      ensures old(attackTimer) > 0.0 ==> t == s && Views(ms) == old(Views(ms)) && attackTimer == old(attackTimer)
      ensures old(attackTimer) <= 0.0 ==>
        attackTimer == ATTACK_COOLDOWN && (Views(ms), t) == AttackOutcome(old(Views(ms)), s, x, y, z, dirX, dirZ, roll, order)
      ensures (x, y, z, dirX, dirZ) == old((x, y, z, dirX, dirZ))
      ensures invincible == old(invincible) && invincibleTimer == old(invincibleTimer) && dashLanding == old(dashLanding)
    {
      if attackTimer > 0.0 {
        return s;
      }
      attackTimer := ATTACK_COOLDOWN;
      var strikes := Strikes(s.run.skillUpgrades);
      var u, total := StrikeRepeatedly(ms, s, x, y, z, dirX, dirZ, roll, order, strikes);
      t := Lifesteal(u, s.run.passives, total);
    }

    /** The strikes of one attack, in order, each against the monsters as the last one left them. */
    static method StrikeRepeatedly(ms: seq<Monster>, s: State, px: real, py: real, pz: real, dirX: real, dirZ: real,
                                   roll: (nat, nat) -> real, order: Shuffle, strikes: nat)
      returns (t: State, total: real)
      requires Distinct(ms)
      modifies ms
      ensures (Views(ms), t, total) ==
        Swings(old(Views(ms)), s, px, py, pz, dirX, dirZ, s.run.stats, s.run.passives, roll, order, strikes)
    {
      ghost var vs := Views(ms);
      total := 0.0;
      t := s;
      for strike := 0 to strikes
        invariant Views(ms) == Swings(vs, s, px, py, pz, dirX, dirZ, s.run.stats, s.run.passives, roll, order, strike).0
        invariant t == Swings(vs, s, px, py, pz, dirX, dirZ, s.run.stats, s.run.passives, roll, order, strike).1
        invariant total == Swings(vs, s, px, py, pz, dirX, dirZ, s.run.stats, s.run.passives, roll, order, strike).2
      {
        ghost var before, t0, total0 := Views(ms), t, total;
        var blows := AttackBlows(Views(ms), px, py, pz, dirX, dirZ, s.run.stats, s.run.passives, roll, strike);
        t := StrikeAll(ms, blows, t, order);
        total := total + TotalDamage(blows);
        SwingsNext(vs, s, px, py, pz, dirX, dirZ, s.run.stats, s.run.passives, roll, order, strike, before, t0, total0);
      }
    }

    /**
     * spinAttack: every living monster strictly inside the spin radius takes the spin damage once,
     * then lifesteal heals from the total.
     */
    method SpinAttack(s: State, ms: seq<Monster>, order: Shuffle) returns (t: State)
      requires Distinct(ms)
      modifies ms
      ensures var blows := SpinBlows(old(Views(ms)), x, y, z, SpinRadius(s.run.skillUpgrades),
                                     SpinDamage(s.run.stats, s.run.passives, s.run.skillUpgrades));
        var r := ApplyBlows(old(Views(ms)), blows, s, order, |ms|);
        Views(ms) == r.0 && t == Lifesteal(r.1, s.run.passives, TotalDamage(blows))
    {
      var radius := SpinRadius(s.run.skillUpgrades);
      var damage := SpinDamage(s.run.stats, s.run.passives, s.run.skillUpgrades);
      var blows := SpinBlows(Views(ms), x, y, z, radius, damage);
      t := StrikeAll(ms, blows, s, order);
      t := Lifesteal(t, s.run.passives, TotalDamage(blows));
    }

    /** dash: invincible from now on, and the dash lands on DashEnd when its animation finishes. */
    method Dash(upgrades: set<string>, obstacles: seq<Obstacle>)
      modifies this
      ensures invincible
      ensures var distance := if DASH_MASTER in upgrades then DASH_DISTANCE + DASH_MASTER_DISTANCE_BONUS else DASH_DISTANCE;
        dashLanding == Some(DashEnd(obstacles, x, z, dirX, dirZ, distance))
      ensures (x, y, z, dirX, dirZ) == old((x, y, z, dirX, dirZ))
      ensures attackTimer == old(attackTimer) && invincibleTimer == old(invincibleTimer)
    {
      invincible := true;
      var distance := DASH_DISTANCE;
      if DASH_MASTER in upgrades {
        distance := distance + DASH_MASTER_DISTANCE_BONUS;
      }
      var landing := DashEndpoint(obstacles, x, z, dirX, dirZ, distance);
      dashLanding := Some(landing);
    }

    /** The path sampling of dash: 10 samples, stopping one sample short of the first collision. */
    static method DashEndpoint(obstacles: seq<Obstacle>, x: real, z: real, dirX: real, dirZ: real, distance: real)
      returns (p: (real, real))
      ensures p == DashEnd(obstacles, x, z, dirX, dirZ, distance)
    {
      var e := DashTarget(x, z, dirX, dirZ, distance);
      p := e;
      for i := 1 to 11
        invariant forall k :: 1 <= k < i ==> !Blocked(obstacles, Sample(x, z, e.0, e.1, k))
        invariant p == e
      {
        var c := Sample(x, z, e.0, e.1, i);
        if CheckCollision(obstacles, c.0, c.1, 0.5).Some? {
          p := Sample(x, z, e.0, e.1, i - 1);
          break;
        }
      }
    }

    /** The end of the dash animation: the player stands on the landing point and is no longer invincible. */
    method FinishDash()
      modifies this
      ensures old(dashLanding).Some? ==> (x, z) == old(dashLanding).value && !invincible && dashLanding == None
      ensures old(dashLanding).None? ==> (x, z, invincible, dashLanding) == old((x, z, invincible, dashLanding))
      ensures (y, dirX, dirZ, attackTimer, invincibleTimer) == old((y, dirX, dirZ, attackTimer, invincibleTimer))
    {
      if dashLanding.Some? {
        x, z := dashLanding.value.0, dashLanding.value.1;
        invincible := false;
        dashLanding := None;
      }
    }

    /**
     * useSkill: nothing outside 'playing', for an unknown skill, or while the skill's cooldown is
     * above 0; otherwise the cooldown is set (2 s less for dash with dash master) and the spin or
     * the dash runs. The other skills of the table only get their cooldown.
     */
    method UseSkill(name: string, s: State, ms: seq<Monster>, obstacles: seq<Obstacle>, order: Shuffle)
      returns (t: State)
      requires Distinct(ms)
      modifies this, ms
      ensures s.phase != Playing || !IsSkill(name) || SkillBusy(s, name) ==>
        t == s && Views(ms) == old(Views(ms)) && dashLanding == old(dashLanding) && invincible == old(invincible)
      ensures s.phase == Playing && IsSkill(name) && !SkillBusy(s, name) && name != SPIN_ATTACK ==>
        Views(ms) == old(Views(ms)) && t == SetSkillCooldown(s, name, SkillCooldownFor(name, s.run.skillUpgrades))
      ensures s.phase == Playing && name == SPIN_ATTACK && !SkillBusy(s, name) ==>
        var u := SetSkillCooldown(s, name, SkillCooldownFor(name, s.run.skillUpgrades));
        var blows := SpinBlows(old(Views(ms)), x, y, z, SpinRadius(u.run.skillUpgrades),
                               SpinDamage(u.run.stats, u.run.passives, u.run.skillUpgrades));
        var r := ApplyBlows(old(Views(ms)), blows, u, order, |ms|);
        Views(ms) == r.0 && t == Lifesteal(r.1, u.run.passives, TotalDamage(blows))
      ensures s.phase == Playing && name == DASH && !SkillBusy(s, name) ==>
        var distance := if DASH_MASTER in s.run.skillUpgrades then DASH_DISTANCE + DASH_MASTER_DISTANCE_BONUS else DASH_DISTANCE;
        invincible && dashLanding == Some(DashEnd(obstacles, x, z, dirX, dirZ, distance))
      ensures name != DASH ==> dashLanding == old(dashLanding)
      ensures (x, y, z, dirX, dirZ) == old((x, y, z, dirX, dirZ)) && attackTimer == old(attackTimer)
    {
      if s.phase != Playing || !IsSkill(name) || SkillBusy(s, name) {
        return s;
      }
      var cooldown := SkillCooldownFor(name, s.run.skillUpgrades);
      t := SetSkillCooldown(s, name, cooldown);
      if name == SPIN_ATTACK {
        t := SpinAttack(t, ms, order);
      } else if name == DASH {
        Dash(t.run.skillUpgrades, obstacles);
      }
    }

    /** Player.update: the attack timer counts down while positive, and the player is pinned to the ground. */
    method Update(delta: real)
      modifies this
      ensures attackTimer == if old(attackTimer) > 0.0 then old(attackTimer) - delta else old(attackTimer)
      ensures invincibleTimer == if old(invincibleTimer) > 0.0 then old(invincibleTimer) - delta else old(invincibleTimer)
      ensures invincible == (old(invincible) && !(old(invincibleTimer) > 0.0 && old(invincibleTimer) - delta <= 0.0))
      ensures y == 0.0 && (x, z, dirX, dirZ, dashLanding) == old((x, z, dirX, dirZ, dashLanding))
    {
      if attackTimer > 0.0 {
        attackTimer := attackTimer - delta;
      }
      if invincibleTimer > 0.0 {
        invincibleTimer := invincibleTimer - delta;
        if invincibleTimer <= 0.0 {
          invincible := false;
        }
      }
      if y != 0.0 {
        y := 0.0;
      }
    }

    /** onHit: the player becomes invincible (until EndHitInvincibility). */
    method OnHit()
      modifies this
      ensures invincible
      ensures (x, y, z, dirX, dirZ, attackTimer, invincibleTimer, dashLanding)
           == old((x, y, z, dirX, dirZ, attackTimer, invincibleTimer, dashLanding))
    {
      invincible := true;
    }

    /** The 500 ms timeout onHit schedules: invincibility ends. */
    method EndHitInvincibility()
      modifies this
      ensures !invincible
      ensures (x, y, z, dirX, dirZ, attackTimer, invincibleTimer, dashLanding)
           == old((x, y, z, dirX, dirZ, attackTimer, invincibleTimer, dashLanding))
    {
      invincible := false;
    }

    /**
     * reset: back to the origin facing -z with both timers at 0 and no invincibility. A dash
     * animation already running is not cancelled.
     */
    method Reset()
      modifies this
      ensures x == 0.0 && y == 0.0 && z == 0.0 && dirX == 0.0 && dirZ == -1.0
      ensures attackTimer == 0.0 && !invincible && invincibleTimer == 0.0 && dashLanding == old(dashLanding)
    {
      x, y, z := 0.0, 0.0, 0.0;
      dirX, dirZ := 0.0, -1.0;
      attackTimer := 0.0;
      invincible := false;
      invincibleTimer := 0.0;
    }
  }

  /** The skill's cooldown is set and above 0, which blocks useSkill. */
  predicate SkillBusy(s: State, name: string) {
    name in s.run.skillCooldowns && s.run.skillCooldowns[name] > 0.0
  }

  /** The cooldown useSkill sets: the table's, 2 s shorter for dash with dash master. */
  function SkillCooldownFor(name: string, upgrades: set<string>): (c: real)
    requires IsSkill(name)
    ensures name == DASH && DASH_MASTER in upgrades ==> c == SkillCooldown(name) - DASH_MASTER_COOLDOWN_REDUCTION
    ensures !(name == DASH && DASH_MASTER in upgrades) ==> c == SkillCooldown(name)
    ensures c > 0.0
  {
    if name == DASH && DASH_MASTER in upgrades then SkillCooldown(name) - DASH_MASTER_COOLDOWN_REDUCTION
    else SkillCooldown(name)
  }
}
