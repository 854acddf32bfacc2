/**
 * Monsters and their spawner (src/game/Monster.js). A monster is an object shared by the
 * manager, the player, the auto-skill engine and the collision pass, so it is a class; what
 * the simulation reads of it is summed up by a MonsterView value. Damage passes over the
 * monster list are specified by ApplyBlows, and StrikeAll is the loop that performs one.
 */
module Monsters {
  import opened Basics
  import opened Config
  import opened GameStore

  /** A monster's simulation state: kind, health, death flag, position and (possibly slowed) speed. */
  datatype MonsterView = MonsterView(
    kind: MonsterKind, hp: real, maxHp: real, dead: bool,
    x: real, y: real, z: real, speed: real, slowed: bool, originalSpeed: real)

  /** A monster as the constructor creates it: the stats of its kind, full health, alive. */
  function Spawned(kind: MonsterKind, x: real, y: real, z: real): (v: MonsterView)
    ensures !v.dead && !v.slowed && v.hp == v.maxHp == MonsterTable(kind).hp > 0.0
    ensures v.speed == MonsterTable(kind).speed && v.kind == kind && (v.x, v.y, v.z) == (x, y, z)
  {
    MonsterView(kind, MonsterTable(kind).hp, MonsterTable(kind).hp, false, x, y, z,
                MonsterTable(kind).speed, false, 0.0)
  }

  /**
   * The monster side of takeDamage: a dead monster ignores the blow; a living one loses exactly
   * `amount` HP (nothing clamps it) and is dead from then on if its HP is 0 or less.
   */
  function Struck(v: MonsterView, amount: real): (w: MonsterView)
    ensures v.dead ==> w == v
    ensures !v.dead ==> w.hp == v.hp - amount && (w.dead <==> w.hp <= 0.0)
    ensures w.kind == v.kind && (w.x, w.y, w.z) == (v.x, v.y, v.z) && w.speed == v.speed && w.slowed == v.slowed
    ensures w.maxHp == v.maxHp && w.originalSpeed == v.originalSpeed
  {
    if v.dead then v else v.(hp := v.hp - amount, dead := v.hp - amount <= 0.0)
  }

  /** die's rewards, in the order die asks the store for them: experience, coins, one kill. */
  function Reward(s: State, kind: MonsterKind, order: Shuffle): (t: State)
    ensures t.run.kills == s.run.kills + 1
    ensures t.run.coinsEarned == s.run.coinsEarned + MonsterTable(kind).coins
    ensures t.run.stats == s.run.stats && t.account == s.account && t.run.day == s.run.day
    ensures t.run.timer == s.run.timer && t.run.skillCooldowns == s.run.skillCooldowns
    ensures t.run.level >= s.run.level && (t.phase == s.phase || t.phase == LevelUp)
    ensures ValidRun(s.run) ==> ValidRun(t.run)
  {
    AddKill(AddCoins(GainExpSpec(s, MonsterTable(kind).exp, order), MonsterTable(kind).coins))
  }

  /** The store side of takeDamage: the rewards exactly when this blow is the one that kills. */
  function StoreAfterBlow(v: MonsterView, amount: real, s: State, order: Shuffle): (t: State)
    ensures Struck(v, amount).dead && !v.dead ==> t == Reward(s, v.kind, order)
    ensures !(Struck(v, amount).dead && !v.dead) ==> t == s
  {
    if !v.dead && v.hp - amount <= 0.0 then Reward(s, v.kind, order) else s
  }

  /** Blows on a dead monster change neither it nor the store: rewards are paid at most once. */
  lemma RewardedOnce(v: MonsterView, first: real, second: real, s: State, order: Shuffle)
    requires Struck(v, first).dead
    ensures Struck(Struck(v, first), second) == Struck(v, first)
    ensures StoreAfterBlow(Struck(v, first), second, s, order) == s
  {
  }

  class Monster {
    const kind: MonsterKind
    var hp: real
    const maxHp: real
    var dead: bool
    var x: real
    var y: real
    var z: real
    var speed: real
    var slowed: bool
    var originalSpeed: real

    function View(): MonsterView
      reads this
    {
      MonsterView(kind, hp, maxHp, dead, x, y, z, speed, slowed, originalSpeed)
    }

    constructor (kind: MonsterKind, x: real, y: real, z: real)
      ensures View() == Spawned(kind, x, y, z)
    {
      this.kind := kind;
      hp := MonsterTable(kind).hp;
      maxHp := MonsterTable(kind).hp;
      dead := false;
      this.x, this.y, this.z := x, y, z;
      speed := MonsterTable(kind).speed;
      slowed := false;
      originalSpeed := 0.0;
    }

    /** The x and z of the unit vector from the monster towards (px, py, pz); Vector3.normalize leaves a zero vector zero. */
    static function Heading(v: MonsterView, px: real, py: real, pz: real, root: real -> real): (r: (real, real))
    {
      var len := root(Dist2(px, py, pz, v.x, v.y, v.z));
      if len == 0.0 then (0.0, 0.0) else ((px - v.x) / len, (pz - v.z) / len)
    }

    /**
     * update: a dead monster stays where it is; a living one walks `speed * delta` along the unit
     * vector towards the player, and a slime's height follows the bounce of this frame.
     */
    static function Walked(v: MonsterView, delta: real, px: real, py: real, pz: real,
                           root: real -> real, bounce: real): (w: MonsterView)
      ensures v.dead ==> w == v
      ensures w == v.(x := w.x, y := w.y, z := w.z)
    {
      if v.dead then v
      else
        var h := Heading(v, px, py, pz, root);
        v.(x := v.x + h.0 * v.speed * delta, z := v.z + h.1 * v.speed * delta,
           y := if v.kind == Slime then bounce else v.y)
    }

    method Update(delta: real, px: real, py: real, pz: real, root: real -> real, bounce: real)
      modifies this
      ensures View() == Walked(old(View()), delta, px, py, pz, root, bounce)
    {
      if dead {
        return;
      }
      var len := root(Dist2(px, py, pz, x, y, z));
      var dx, dz := 0.0, 0.0;
      if len != 0.0 {
        dx, dz := (px - x) / len, (pz - z) / len;
      }
      ghost var v := View();
      assert (dx, dz) == Heading(v, px, py, pz, root);
      x := x + dx * speed * delta;
      z := z + dz * speed * delta;
      if kind == Slime {
        y := bounce;
      }
    }

    /** takeDamage: see Struck and StoreAfterBlow. */
    method TakeDamage(amount: real, s: State, order: Shuffle) returns (t: State)
      modifies this
      ensures View() == Struck(old(View()), amount)
      ensures t == StoreAfterBlow(old(View()), amount, s, order)
    {
      if dead {
        return s;
      }
      hp := hp - amount;
      t := s;
      if hp <= 0.0 {
        t := Die(s, order);
      }
    }

    /** die: marks the monster dead and collects its experience, coins and kill. */
    method Die(s: State, order: Shuffle) returns (t: State)
      modifies this
      ensures View() == old(View()).(dead := true)
      ensures t == Reward(s, kind, order)
    {
      dead := true;
      t := GainExp(s, MonsterTable(kind).exp, order);
      t := AddCoins(t, MonsterTable(kind).coins);
      t := AddKill(t);
    }
  }

  predicate Distinct(ms: seq<Monster>) {
    forall i, j :: 0 <= i < j < |ms| ==> ms[i] != ms[j]
  }

  function Views(ms: seq<Monster>): (vs: seq<MonsterView>)
    reads ms
    ensures |vs| == |ms| && forall j :: 0 <= j < |ms| ==> vs[j] == ms[j].View()
  {
    seq(|ms|, j reads ms requires 0 <= j < |ms| => ms[j].View())
  }

  // ---------------------------------------------------------------- damage passes

  /** What a pass does to one monster: nothing, or one takeDamage of the given amount. */
  datatype Blow = Miss | Hit(amount: real)

  function Land(v: MonsterView, b: Blow): MonsterView {
    match b
    case Miss => v
    case Hit(a) => Struck(v, a)
  }

  predicate KilledBy(v: MonsterView, b: Blow) {
    !v.dead && Land(v, b).dead
  }

  /** How many of the first k monsters the blows kill. */
  function Kills(vs: seq<MonsterView>, blows: seq<Blow>, k: nat): nat
    requires |blows| == |vs| && k <= |vs|
  {
    if k == 0 then 0 else Kills(vs, blows, k - 1) + (if KilledBy(vs[k - 1], blows[k - 1]) then 1 else 0)
  }

  /** The coins the monsters killed among the first k are worth. */
  function Bounty(vs: seq<MonsterView>, blows: seq<Blow>, k: nat): int
    requires |blows| == |vs| && k <= |vs|
  {
    if k == 0 then 0
    else Bounty(vs, blows, k - 1) + (if KilledBy(vs[k - 1], blows[k - 1]) then MonsterTable(vs[k - 1].kind).coins else 0)
  }

  /** The damage the blows deal in all, as the callers add it up for lifesteal. */
  function TotalDamage(blows: seq<Blow>): real {
    if blows == [] then 0.0
    else TotalDamage(blows[..|blows| - 1]) + match blows[|blows| - 1] { case Miss => 0.0 case Hit(a) => a }
  }

  /** A pass over the monster list in order, the first k monsters each taking their blow. */
  function ApplyBlows(vs: seq<MonsterView>, blows: seq<Blow>, s: State, order: Shuffle, k: nat): (r: (seq<MonsterView>, State))
    requires |blows| == |vs| && k <= |vs|
    ensures |r.0| == |vs|
    decreases k
  {
    if k == 0 then (vs, s)
    else
      var prev := ApplyBlows(vs, blows, s, order, k - 1);
      match blows[k - 1]
      case Miss => prev
      case Hit(a) =>
        (prev.0[k - 1 := Struck(prev.0[k - 1], a)], StoreAfterBlow(prev.0[k - 1], a, prev.1, order))
  }

  /** After a pass over the first k monsters, every one of them is exactly as its own blow leaves it. */
  lemma {:induction false} ApplyBlowsLands(vs: seq<MonsterView>, blows: seq<Blow>, s: State, order: Shuffle, k: nat)
    requires |blows| == |vs| && k <= |vs|
    ensures forall j :: 0 <= j < |vs| ==>
      ApplyBlows(vs, blows, s, order, k).0[j] == if j < k then Land(vs[j], blows[j]) else vs[j]
    decreases k
  {
    if k > 0 {
      ApplyBlowsLands(vs, blows, s, order, k - 1);
    }
  }

  /** One more monster in the pass: its blow lands on it as it was before the pass. */
  lemma ApplyBlowsNext(vs: seq<MonsterView>, blows: seq<Blow>, s: State, order: Shuffle, k: nat)
    requires |blows| == |vs| && k < |vs|
    ensures var prev := ApplyBlows(vs, blows, s, order, k);
      ApplyBlows(vs, blows, s, order, k + 1).1 ==
        match blows[k] { case Miss => prev.1 case Hit(a) => StoreAfterBlow(vs[k], a, prev.1, order) }
  {
    ApplyBlowsLands(vs, blows, s, order, k);
  }

  /**
   * The store after a pass has collected the rewards of exactly those monsters the pass killed,
   * and nothing else in it has changed but level, experience and the level-up prompt.
   */
  lemma {:induction false} ApplyBlowsRewards(vs: seq<MonsterView>, blows: seq<Blow>, s: State, order: Shuffle, k: nat)
    requires |blows| == |vs| && k <= |vs|
    ensures var r := ApplyBlows(vs, blows, s, order, k);
      && r.1.run.kills == s.run.kills + Kills(vs, blows, k)
      && r.1.run.coinsEarned == s.run.coinsEarned + Bounty(vs, blows, k)
      && r.1.run.stats == s.run.stats && r.1.account == s.account && r.1.run.day == s.run.day
      && r.1.run.timer == s.run.timer && r.1.run.skillCooldowns == s.run.skillCooldowns
      && r.1.run.level >= s.run.level && (r.1.phase == s.phase || r.1.phase == LevelUp)
      && (ValidRun(s.run) ==> ValidRun(r.1.run))
    decreases k
  {
    if k > 0 {
      ApplyBlowsRewards(vs, blows, s, order, k - 1);
      ApplyBlowsLands(vs, blows, s, order, k - 1);
    }
  }

  /** One pass of blows over the monster list, in list order. */
  method StrikeAll(ms: seq<Monster>, blows: seq<Blow>, s: State, order: Shuffle) returns (t: State)
    requires Distinct(ms) && |blows| == |ms|
    modifies ms
    ensures (Views(ms), t) == ApplyBlows(old(Views(ms)), blows, s, order, |ms|)
  {
    ghost var vs := Views(ms);
    t := s;
    for i := 0 to |ms|
      invariant Views(ms) == ApplyBlows(vs, blows, s, order, i).0
      invariant t == ApplyBlows(vs, blows, s, order, i).1
    {
      match blows[i] {
        case Miss =>
        case Hit(a) =>
          t := StrikeOne(ms, i, a, t, order);
      }
    }
  }

  /** One takeDamage on the i-th monster of a list: it alone changes. */
  method StrikeOne(ms: seq<Monster>, i: nat, amount: real, s: State, order: Shuffle) returns (t: State)
    requires Distinct(ms) && i < |ms|
    modifies ms[i]
    ensures Views(ms) == old(Views(ms))[i := Struck(old(Views(ms))[i], amount)]
    ensures t == StoreAfterBlow(old(Views(ms))[i], amount, s, order)
  {
    ghost var before := Views(ms);
    t := ms[i].TakeDamage(amount, s, order);
    assert forall j :: 0 <= j < |ms| && j != i ==> ms[j].View() == before[j];
  }

  /** For each monster of `ms`, whether it is still alive: the test of update's filter. */
  function LivingFlags(ms: seq<Monster>): (f: seq<bool>)
    reads ms
    ensures |f| == |ms| && forall i :: 0 <= i < |ms| ==> (f[i] <==> !ms[i].dead)
  {
    seq(|ms|, i reads ms requires 0 <= i < |ms| => !ms[i].dead)
  }

  /** The monsters not yet dead, in their order: the filter that ends MonsterManager.update. */
  function Survivors(ms: seq<Monster>): (r: seq<Monster>)
    reads ms
    ensures |r| <= |ms|
    ensures forall i :: 0 <= i < |r| ==> r[i] in ms && !r[i].dead
    ensures forall i :: 0 <= i < |ms| && !ms[i].dead ==> ms[i] in r
    ensures Distinct(ms) ==> Distinct(r)
    decreases |ms|
  {
    if ms == [] then []
    else Survivors(ms[..|ms| - 1]) + (if ms[|ms| - 1].dead then [] else [ms[|ms| - 1]])
  }

  /** The survivors keep their order: the i-th one is the monster at the i-th living position of `ms`. */
  lemma {:induction false} SurvivorsInOrder(ms: seq<Monster>)
    ensures |Survivors(ms)| == |Kept(LivingFlags(ms))|
    ensures forall i :: 0 <= i < |Survivors(ms)| ==> Survivors(ms)[i] == ms[Kept(LivingFlags(ms))[i]]
  {
    if ms != [] {
      var n := |ms| - 1;
      SurvivorsInOrder(ms[..n]);
      assert LivingFlags(ms)[..n] == LivingFlags(ms[..n]);
      KeptStep(ms, LivingFlags(ms), Survivors(ms[..n]));
    }
  }

  /** The views of two lists one after the other are the views of the joined list. */
  lemma ViewsAppend(ms: seq<Monster>, born: seq<Monster>)
    ensures Views(ms + born) == Views(ms) + Views(born)
  {
  }

  /** Walking two lists one after the other is walking the joined list. */
  lemma WalkedAllAppend(vs: seq<MonsterView>, ws: seq<MonsterView>, delta: real, px: real, py: real, pz: real,
                        root: real -> real, bounce: real)
    ensures WalkedAll(vs + ws, delta, px, py, pz, root, bounce) ==
            WalkedAll(vs, delta, px, py, pz, root, bounce) + WalkedAll(ws, delta, px, py, pz, root, bounce)
  {
  }

  /** update's walk over the whole list: every monster as Walked leaves it. */
  function WalkedAll(vs: seq<MonsterView>, delta: real, px: real, py: real, pz: real,
                     root: real -> real, bounce: real): (ws: seq<MonsterView>)
    ensures |ws| == |vs|
    ensures forall j :: 0 <= j < |vs| ==> ws[j] == Monster.Walked(vs[j], delta, px, py, pz, root, bounce)
  {
    seq(|vs|, j requires 0 <= j < |vs| => Monster.Walked(vs[j], delta, px, py, pz, root, bounce))
  }

  method WalkAll(ms: seq<Monster>, delta: real, px: real, py: real, pz: real, root: real -> real, bounce: real)
    requires Distinct(ms)
    modifies ms
    ensures Views(ms) == WalkedAll(old(Views(ms)), delta, px, py, pz, root, bounce)
  {
    ghost var vs := Views(ms);
    for i := 0 to |ms|
      invariant forall j :: 0 <= j < i ==> ms[j].View() == Monster.Walked(vs[j], delta, px, py, pz, root, bounce)
      invariant forall j :: i <= j < |ms| ==> ms[j].View() == vs[j]
    {
      ms[i].Update(delta, px, py, pz, root, bounce);
    }
  }

  // ---------------------------------------------------------------- spawning

  /**
   * The rule getAvailableTypes settles on: the largest SPAWN_RULES key not above `day`, and the
   * default key 2 when every key is above it.
   */
  function RuleKey(day: int): (key: int)
    ensures key in SPAWN_RULE_KEYS
    ensures day >= DEFAULT_RULE_KEY ==> key <= day
    ensures forall j :: 0 <= j < |SPAWN_RULE_KEYS| && SPAWN_RULE_KEYS[j] <= day ==> SPAWN_RULE_KEYS[j] <= key
    ensures day < DEFAULT_RULE_KEY ==> key == DEFAULT_RULE_KEY
  {
    if day >= 15 then 15 else if day >= 10 then 10 else if day >= 5 then 5 else 2
  }

  /** For each kind of `kinds`, whether its first day has come by `day`. */
  function OnDayFlags(kinds: seq<MonsterKind>, day: int): (f: seq<bool>)
    ensures |f| == |kinds| && forall i :: 0 <= i < |kinds| ==> (f[i] <==> MonsterTable(kinds[i]).minDay <= day)
  {
    seq(|kinds|, i requires 0 <= i < |kinds| => MonsterTable(kinds[i]).minDay <= day)
  }

  /** The kinds of `kinds`, in order, whose first day has come. */
  function Eligible(kinds: seq<MonsterKind>, day: int): (r: seq<MonsterKind>)
    ensures |r| <= |kinds|
    ensures forall k :: k in r <==> k in kinds && MonsterTable(k).minDay <= day
  {
    if kinds == [] then []
    else
      var last := kinds[|kinds| - 1];
      Eligible(kinds[..|kinds| - 1], day) + (if MonsterTable(last).minDay <= day then [last] else [])
  }

  /** The eligible kinds keep the rule's order: the i-th one is the kind at the i-th eligible position. */
  lemma {:induction false} EligibleInOrder(kinds: seq<MonsterKind>, day: int)
    ensures |Eligible(kinds, day)| == |Kept(OnDayFlags(kinds, day))|
    ensures forall i :: 0 <= i < |Eligible(kinds, day)| ==>
      Eligible(kinds, day)[i] == kinds[Kept(OnDayFlags(kinds, day))[i]]
  {
    if kinds != [] {
      var n := |kinds| - 1;
      EligibleInOrder(kinds[..n], day);
      assert OnDayFlags(kinds, day)[..n] == OnDayFlags(kinds[..n], day);
      KeptStep(kinds, OnDayFlags(kinds, day), Eligible(kinds[..n], day));
    }
  }

  /** What getAvailableTypes returns for `day`. */
  function AvailableTypes(day: int): seq<MonsterKind> {
    Eligible(SpawnRuleTypes(RuleKey(day)), day)
  }

  /**
   * Nothing can spawn before day 2, and from day 2 on something always can: every rule offers a
   * slime or a goblin, whose first day is 2.
   */
  lemma AvailableFromDayTwo(day: int)
    ensures AvailableTypes(day) == [] <==> day < 2
    ensures forall k :: k in AvailableTypes(day) ==> MonsterTable(k).minDay <= day
  {
    if day >= 2 {
      assert Goblin in SpawnRuleTypes(RuleKey(day));
      assert Goblin in AvailableTypes(day);
    } else {
      assert RuleKey(day) == DEFAULT_RULE_KEY;
      assert [Slime, Goblin][..1] == [Slime];
      assert Eligible([Slime], day) == [];
    }
  }

  /** The spawn interval of `day`: 3 s on day 2, 0.2 s shorter each day after, never below 1 s. */
  function SpawnInterval(day: int): (r: real)
    ensures SPAWN_INTERVAL_MIN <= r
    ensures day >= 2 ==> r <= SPAWN_INTERVAL_BASE
    ensures day >= 12 ==> r == SPAWN_INTERVAL_MIN
  {
    Max(SPAWN_INTERVAL_MIN, SPAWN_INTERVAL_BASE - (day - 2) as real * 0.2)
  }

  /** Later days never spawn more slowly. */
  lemma SpawnIntervalShrinks(d1: int, d2: int)
    requires d1 <= d2
    ensures SpawnInterval(d2) <= SpawnInterval(d1)
  {
  }

  /** The random draws one spawn uses: the type draw and the offset cos(angle) * distance, sin(angle) * distance. */
  datatype SpawnDraw = SpawnDraw(typeDraw: real, offsetX: real, offsetZ: real)

  predicate Drawn(d: SpawnDraw) {
    0.0 <= d.typeDraw < 1.0
  }

  /** `types[Math.floor(draw * types.length)]`. */
  function PickKind(types: seq<MonsterKind>, draw: real): (k: MonsterKind)
    requires types != [] && 0.0 <= draw < 1.0
    ensures k in types
  {
    var i := (draw * |types| as real).Floor;
    assert 0 <= i < |types| by {
      assert draw * |types| as real < |types| as real;
    }
    types[i]
  }

  /** getSpawnPosition: the player's position plus the offset, clamped onto the map, at height 0. */
  function SpawnPosition(px: real, pz: real, offsetX: real, offsetZ: real): (p: (real, real))
    ensures OnMap(p.0, p.1)
    ensures OnMap(px + offsetX, pz + offsetZ) ==> p == (px + offsetX, pz + offsetZ)
  {
    (ClampToMap(px + offsetX), ClampToMap(pz + offsetZ))
  }

  /** The monster spawn `d` brings: a kind picked from `types`, standing at the clamped spawn position. */
  function Arrival(types: seq<MonsterKind>, d: SpawnDraw, px: real, pz: real): (v: MonsterView)
    requires types != [] && Drawn(d)
    ensures v.kind in types && !v.dead && OnMap(v.x, v.z) && v.y == 0.0
  {
    var p := SpawnPosition(px, pz, d.offsetX, d.offsetZ);
    Spawned(PickKind(types, d.typeDraw), p.0, 0.0, p.1)
  }

  /** How many monsters spawnContinuous adds when `room` more fit: 1 or 2 as the draw says, capped by room. */
  function SpawnCount(day: int, countDraw: real, room: int): (n: int)
    ensures AvailableTypes(day) == [] ==> n == 0
    ensures n <= 2 && (room >= 0 ==> 0 <= n <= room)
  {
    if AvailableTypes(day) == [] || room <= 0 then 0
    else if countDraw < 0.7 then 1
    else if room < 2 then room else 2
  }

  /** spawnTimer after the spawn step of update, given the list length at the start of the frame. */
  function NextSpawnTimer(timer: real, delta: real, day: int, count: int): (r: real)
    ensures timer >= 0.0 && delta >= 0.0 ==> r >= 0.0
    ensures day > SAFE_DAYS && count < MAX_MONSTERS ==> r < SpawnInterval(day)
  {
    if day <= SAFE_DAYS then timer
    else if timer + delta >= SpawnInterval(day) && count < MAX_MONSTERS then 0.0
    else timer + delta
  }

  /** Whether update calls spawnContinuous this frame. */
  predicate SpawnDue(timer: real, delta: real, day: int, count: int): (due: bool)
    ensures due ==> AvailableTypes(day) != [] && count < MAX_MONSTERS
  {
    AvailableFromDayTwo(day);
    day > SAFE_DAYS && timer + delta >= SpawnInterval(day) && count < MAX_MONSTERS
  }

  /** How many monsters update's spawn step brings: SpawnCount when a spawn is due, otherwise none. */
  function ArrivalCount(timer: real, delta: real, day: int, countDraw: real, count: int): (n: nat)
    ensures n > 0 ==> SpawnDue(timer, delta, day, count) && AvailableTypes(day) != []
    ensures n <= MAX_MONSTERS - count || n == 0
  {
    if SpawnDue(timer, delta, day, count) then SpawnCount(day, countDraw, MAX_MONSTERS - count) else 0
  }

  /** The monsters update's spawn step brings, in order: ArrivalCount arrivals, the i-th from draws[i]. */
  function Arrivals(timer: real, delta: real, day: int, countDraw: real, count: int,
                    draws: seq<SpawnDraw>, px: real, pz: real): (vs: seq<MonsterView>)
    requires |draws| == 2 && Drawn(draws[0]) && Drawn(draws[1])
    ensures |vs| == ArrivalCount(timer, delta, day, countDraw, count)
    ensures forall i :: 0 <= i < |vs| ==> !vs[i].dead
  {
    var n := ArrivalCount(timer, delta, day, countDraw, count);
    seq(n, i requires 0 <= i < n => Arrival(AvailableTypes(day), draws[i], px, pz))
  }

  /** Appending monsters that are all alive to a list appends them, in order, to its survivors. */
  lemma {:induction false} SurvivorsAppendLiving(ms: seq<Monster>, born: seq<Monster>)
    requires forall i :: 0 <= i < |born| ==> !born[i].dead
    ensures Survivors(ms + born) == Survivors(ms) + born
  {
    var all := ms + born;
    if born == [] {
      assert all == ms;
    } else {
      var n := |born| - 1;
      assert all[..|all| - 1] == ms + born[..n];
      assert all[|all| - 1] == born[n];
      calc {
        Survivors(all);
        Survivors(all[..|all| - 1]) + [born[n]];
        { SurvivorsAppendLiving(ms, born[..n]); }
        Survivors(ms) + born[..n] + [born[n]];
        { assert born[..n] + [born[n]] == born; }
        Survivors(ms) + born;
      }
    }
  }

  class MonsterManager {
    var monsters: seq<Monster>
    var lastDay: int
    var spawnTimer: real

    /** Every monster is listed once, and the list never grows beyond MAX_MONSTERS. */
    ghost predicate Valid()
      reads this
    {
      Distinct(monsters) && |monsters| <= MAX_MONSTERS
    }

    constructor ()
      ensures Valid() && monsters == [] && lastDay == 0 && spawnTimer == 0.0
    {
      monsters := [];
      lastDay := 0;
      spawnTimer := 0.0;
    }

    /** getAvailableTypes: the first rule key at most `day`, then the kinds of that rule whose first day has come. */
    static method GetAvailableTypes(day: int) returns (types: seq<MonsterKind>)
      ensures types == AvailableTypes(day)
    {
      var key := DEFAULT_RULE_KEY;
      var i := 0;
      while i < |SPAWN_RULE_KEYS|
        invariant 0 <= i <= |SPAWN_RULE_KEYS|
        invariant forall j :: 0 <= j < i ==> day < SPAWN_RULE_KEYS[j]
        invariant key == DEFAULT_RULE_KEY
      {
        if day >= SPAWN_RULE_KEYS[i] {
          key := SPAWN_RULE_KEYS[i];
          break;
        }
        i := i + 1;
      }
      assert key == RuleKey(day);
      var rule := SpawnRuleTypes(key);
      types := [];
      for n := 0 to |rule|
        invariant types == Eligible(rule[..n], day)
      {
        assert rule[..n + 1][..n] == rule[..n];
        if MonsterTable(rule[n]).minDay <= day {
          types := types + [rule[n]];
        }
      }
      assert rule[..|rule|] == rule;
    }

    /** spawnMonster: a new monster of `kind` at (x, 0, z), appended to the list. */
    method SpawnMonster(kind: MonsterKind, x: real, z: real) returns (m: Monster)
      requires Distinct(monsters)
      modifies this
      ensures fresh(m) && m.View() == Spawned(kind, x, 0.0, z)
      ensures monsters == old(monsters) + [m] && Distinct(monsters)
      ensures lastDay == old(lastDay) && spawnTimer == old(spawnTimer)
    {
      m := new Monster(kind, x, 0.0, z);
      monsters := monsters + [m];
    }

    /**
     * spawnContinuous: when some kind is available, one monster (count draw below 0.7) or two,
     * stopping at MAX_MONSTERS; spawn i takes its kind and position from draws[i].
     */
    method SpawnContinuous(day: int, countDraw: real, draws: seq<SpawnDraw>, px: real, pz: real)
      requires Valid() && |draws| == 2 && Drawn(draws[0]) && Drawn(draws[1])
      modifies this
      ensures Valid() && lastDay == old(lastDay) && spawnTimer == old(spawnTimer)
      ensures |monsters| == |old(monsters)| + SpawnCount(day, countDraw, MAX_MONSTERS - |old(monsters)|)
      ensures monsters[..|old(monsters)|] == old(monsters)
      ensures forall i :: |old(monsters)| <= i < |monsters| ==>
        fresh(monsters[i]) && monsters[i].View() == Arrival(AvailableTypes(day), draws[i - |old(monsters)|], px, pz)
    {
      var types := GetAvailableTypes(day);
      if |types| == 0 {
        return;
      }
      var count := if countDraw < 0.7 then 1 else 2;
      ghost var before := monsters;
      ghost var born: seq<Monster> := [];
      var i := 0;
      while i < count && |monsters| < MAX_MONSTERS
        invariant 0 <= i <= count && |born| == i && |monsters| <= MAX_MONSTERS
        invariant monsters == before + born && Distinct(monsters)
        invariant forall j :: 0 <= j < i ==> fresh(born[j]) && born[j].View() == Arrival(types, draws[j], px, pz)
        invariant lastDay == old(lastDay) && spawnTimer == old(spawnTimer)
      {
        var p := SpawnPosition(px, pz, draws[i].offsetX, draws[i].offsetZ);
        var m := SpawnMonster(PickKind(types, draws[i].typeDraw), p.0, p.1);
        born := born + [m];
        i := i + 1;
      }
    }

    /**
     * update: past the safe days the spawn timer runs and, once it reaches the day's interval with
     * room left, a spawn happens and the timer restarts; then every monster walks and the dead
     * are dropped from the list.
     */
    method Update(delta: real, day: int, countDraw: real, draws: seq<SpawnDraw>,
                  px: real, py: real, pz: real, root: real -> real, bounce: real)
      requires Valid() && |draws| == 2 && Drawn(draws[0]) && Drawn(draws[1])
      modifies this, monsters
      ensures Valid() && lastDay == day
      ensures spawnTimer == NextSpawnTimer(old(spawnTimer), delta, day, |old(monsters)|)
      ensures Views(old(monsters)) == WalkedAll(old(Views(monsters)), delta, px, py, pz, root, bounce)
      ensures forall i :: 0 <= i < |monsters| ==> !monsters[i].dead && (monsters[i] in old(monsters) || fresh(monsters[i]))
      ensures forall i :: 0 <= i < |old(monsters)| && !old(monsters)[i].dead ==> old(monsters)[i] in monsters
      ensures !SpawnDue(old(spawnTimer), delta, day, |old(monsters)|) ==>
        forall i :: 0 <= i < |monsters| ==> monsters[i] in old(monsters)
      ensures var n := ArrivalCount(old(spawnTimer), delta, day, countDraw, |old(monsters)|);
        && n <= |monsters| && monsters[..|monsters| - n] == Survivors(old(monsters))
        && Views(monsters[|monsters| - n..]) ==
           WalkedAll(Arrivals(old(spawnTimer), delta, day, countDraw, |old(monsters)|, draws, px, pz),
                     delta, px, py, pz, root, bounce)
    {
      var before := monsters;
      ghost var pre := Views(monsters);
      SpawnStep(delta, day, countDraw, draws, px, pz);
      lastDay := day;
      var born := monsters[|before|..];
      assert monsters == before + born;
      ghost var arrived := Views(born);
      ghost var n := ArrivalCount(old(spawnTimer), delta, day, countDraw, |before|);
      assert arrived == Arrivals(old(spawnTimer), delta, day, countDraw, |before|, draws, px, pz);
      assert |born| == n;
      assert Views(before) == pre;
      assert Distinct(before + born) && |before + born| <= MAX_MONSTERS;
      assert forall m :: m in born ==> fresh(m);
      WalkAndDrop(before, born, delta, px, py, pz, root, bounce);
      assert monsters[..|monsters| - n] == Survivors(before);
      assert monsters[|monsters| - n..] == born;
    }

    /**
     * The walk and the filter of update over the list the spawn step left, whose tail `born` was
     * just spawned: every monster walks, then the survivors of the older part come first, in
     * their order, followed by every newcomer.
     */
    method WalkAndDrop(ms: seq<Monster>, born: seq<Monster>, delta: real,
                       px: real, py: real, pz: real, root: real -> real, bounce: real)
      requires Distinct(ms + born) && |ms + born| <= MAX_MONSTERS
      requires forall i :: 0 <= i < |born| ==> !born[i].dead
      modifies this, ms, born
      ensures Valid() && lastDay == old(lastDay) && spawnTimer == old(spawnTimer)
      ensures Views(ms) == WalkedAll(old(Views(ms)), delta, px, py, pz, root, bounce)
      ensures Views(born) == WalkedAll(old(Views(born)), delta, px, py, pz, root, bounce)
      ensures monsters == Survivors(ms + born) == Survivors(ms) + born
      ensures forall i :: 0 <= i < |monsters| ==> !monsters[i].dead && (monsters[i] in ms || monsters[i] in born)
      ensures forall i :: 0 <= i < |ms| && !ms[i].dead ==> ms[i] in monsters
    {
      WalkBoth(ms, born, delta, px, py, pz, root, bounce);
      DropDead(ms, born);
    }

    /** update's walk over a list made of two parts: each part walks as WalkedAll says. */
    static method WalkBoth(ms: seq<Monster>, born: seq<Monster>, delta: real,
                           px: real, py: real, pz: real, root: real -> real, bounce: real)
      requires Distinct(ms + born)
      modifies ms, born
      ensures Views(ms) == WalkedAll(old(Views(ms)), delta, px, py, pz, root, bounce)
      ensures Views(born) == WalkedAll(old(Views(born)), delta, px, py, pz, root, bounce)
    {
      var all := ms + born;
      ghost var before, arrived := Views(ms), Views(born);
      ViewsAppend(ms, born);
      WalkAll(all, delta, px, py, pz, root, bounce);
      WalkedAllAppend(before, arrived, delta, px, py, pz, root, bounce);
      ViewsAppend(ms, born);
      SplitEqual(Views(ms), Views(born), WalkedAll(before, delta, px, py, pz, root, bounce),
                 WalkedAll(arrived, delta, px, py, pz, root, bounce));
    }

    /**
     * update's filter over a list whose tail `born` is all alive: the list becomes the living
     * monsters of `ms`, in order, followed by every newcomer. No monster changes.
     */
    method DropDead(ms: seq<Monster>, born: seq<Monster>)
      requires forall i :: 0 <= i < |born| ==> !born[i].dead
      modifies this
      ensures monsters == Survivors(ms + born) == Survivors(ms) + born
      ensures lastDay == old(lastDay) && spawnTimer == old(spawnTimer)
      ensures Views(ms) == old(Views(ms)) && Views(born) == old(Views(born))
      ensures forall i :: 0 <= i < |monsters| ==> !monsters[i].dead && (monsters[i] in ms || monsters[i] in born)
      ensures forall i :: 0 <= i < |ms| && !ms[i].dead ==> ms[i] in monsters
    {
      SurvivorsAppendLiving(ms, born);
      monsters := Survivors(ms + born);
      forall i | 0 <= i < |monsters|
        ensures !monsters[i].dead && (monsters[i] in ms || monsters[i] in born)
      {
        if i >= |Survivors(ms)| {
          assert monsters[i] == born[i - |Survivors(ms)|];
        }
      }
    }

    /** The spawn half of update: the timer runs past the safe days, and a due spawn restarts it. */
    method SpawnStep(delta: real, day: int, countDraw: real, draws: seq<SpawnDraw>, px: real, pz: real)
      requires Valid() && |draws| == 2 && Drawn(draws[0]) && Drawn(draws[1])
      modifies this
      ensures Valid() && lastDay == old(lastDay)
      ensures spawnTimer == NextSpawnTimer(old(spawnTimer), delta, day, |old(monsters)|)
      ensures |old(monsters)| <= |monsters| && monsters[..|old(monsters)|] == old(monsters)
      ensures forall i :: |old(monsters)| <= i < |monsters| ==> fresh(monsters[i])
      ensures !SpawnDue(old(spawnTimer), delta, day, |old(monsters)|) ==> monsters == old(monsters)
      ensures |monsters| == |old(monsters)| + ArrivalCount(old(spawnTimer), delta, day, countDraw, |old(monsters)|)
      ensures Views(monsters[|old(monsters)|..]) ==
        Arrivals(old(spawnTimer), delta, day, countDraw, |old(monsters)|, draws, px, pz)
    {
      if day > SAFE_DAYS {
        spawnTimer := spawnTimer + delta;
        var interval := SpawnInterval(day);
        if spawnTimer >= interval && |monsters| < MAX_MONSTERS {
          SpawnContinuous(day, countDraw, draws, px, pz);
          spawnTimer := 0.0;
        }
      }
    }

    /** clearAll: the list empties and lastDay returns to 0; the spawn timer is left as it was. */
    method ClearAll()
      modifies this
      ensures monsters == [] && lastDay == 0 && spawnTimer == old(spawnTimer) && Valid()
    {
      monsters := [];
      lastDay := 0;
    }
  }

}
