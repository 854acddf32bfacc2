/**
 * The frame loop (src/game/Game.js): keyboard axes to movement, the player-monster and
 * player-artifact collision passes, the fixed order of updates in a frame while playing, and
 * the start of a new run. The store is passed in and returned as a value.
 */
module Games {
  import opened Basics
  import opened Config
  import opened GameStore
  import opened Monsters
  import opened Artifacts
  import WorldMap
  import Players
  import AutoSkills

  /** How close a monster must come to hurt the player, and an artifact to be picked up. */
  const CONTACT_RANGE: real := 1.5
  const PICKUP_RANGE: real := 2.0

  // ---------------------------------------------------------------- input

  /** The movement keys held down. */
  datatype Keys = Keys(w: bool, a: bool, s: bool, d: bool)

  /**
   * What a frame takes from outside the simulation: the clock's delta, the keys held, the
   * jitter draws of the obstacle push-out, the spawner's draws, the bounce phase of the walk
   * animation, one draw per auto-skill for lightning, and the chest draws of the pick-up pass.
   */
  datatype Frame = Frame(
    delta: real, keys: Keys, jitterX: real, jitterZ: real, countDraw: real, spawnDraws: seq<SpawnDraw>,
    bounce: real, skillDraws: seq<real>, chestDraws: nat -> ChestDraw)

  /** One handleInput axis: 1 for the positive key, -1 for the negative one, 0 for both or neither. */
  function Axis(positive: bool, negative: bool): (v: real)
    ensures v == 1.0 || v == 0.0 || v == -1.0
    ensures v == 0.0 <==> positive == negative
    ensures v == 1.0 <==> positive && !negative
  {
    (if positive then 1.0 else 0.0) - (if negative then 1.0 else 0.0)
  }

  // ---------------------------------------------------------------- monster contact

  /** An alive monster closer to the player than CONTACT_RANGE. */
  predicate Touches(v: MonsterView, px: real, py: real, pz: real) {
    !v.dead && Within(Dist2(px, py, pz, v.x, v.y, v.z), CONTACT_RANGE)
  }

  /** The first monster, from index i on, that touches the player. */
  function FirstContact(vs: seq<MonsterView>, px: real, py: real, pz: real, i: nat): (r: Option<nat>)
    requires i <= |vs|
    ensures r.Some? ==> i <= r.value < |vs| && Touches(vs[r.value], px, py, pz)
    ensures r.Some? ==> forall j :: i <= j < r.value ==> !Touches(vs[j], px, py, pz)
    ensures r.None? ==> forall j :: i <= j < |vs| ==> !Touches(vs[j], px, py, pz)
    decreases |vs| - i
  {
    if i == |vs| then None
    else if Touches(vs[i], px, py, pz) then Some(i)
    else FirstContact(vs, px, py, pz, i + 1)
  }

  /** A touching monster with no touching monster before it is the first contact. */
  lemma {:induction false} FirstContactAt(vs: seq<MonsterView>, px: real, py: real, pz: real, i: nat, j: nat)
    requires i <= j < |vs| && Touches(vs[j], px, py, pz)
    requires forall k :: i <= k < j ==> !Touches(vs[k], px, py, pz)
    ensures FirstContact(vs, px, py, pz, i) == Some(j)
    decreases j - i
  {
    if i < j {
      FirstContactAt(vs, px, py, pz, i + 1, j);
    }
  }

  /**
   * The monster pass of checkCollisions: an invincible player is not hurt; otherwise the first
   * monster that touches takes effect through takeDamage with its attack, the player becomes
   * invincible (so no later monster hurts in the same pass), and with thorns that monster takes
   * 0.2 of the damage dealt. The result is the monsters, the store and the invincible flag.
   */
  function Contact(vs: seq<MonsterView>, s: State, px: real, py: real, pz: real, invincible: bool,
                   order: Shuffle): (r: (seq<MonsterView>, State, bool))
    ensures |r.0| == |vs|
    ensures invincible ==> r == (vs, s, true)
    ensures r.2 <==> invincible || FirstContact(vs, px, py, pz, 0).Some?
    ensures !r.2 ==> r.0 == vs && r.1 == s
  {
    if invincible then (vs, s, true)
    else
      match FirstContact(vs, px, py, pz, 0)
      case None => (vs, s, false)
      case Some(j) =>
        var hurt := TakeDamage(s, MonsterTable(vs[j].kind).atk);
        if THORNS in s.run.passives then
          (vs[j := Struck(vs[j], hurt.1 * THORNS_VALUE)], StoreAfterBlow(vs[j], hurt.1 * THORNS_VALUE, hurt.0, order), true)
        else (vs, hurt.0, true)
  }

  /**
   * A vulnerable player touched by some monster loses exactly what takeDamage takes for the
   * first one in list order, at least 1 HP or all of it; with thorns that monster alone loses
   * a fifth of that damage, and every other monster is left as it was.
   */
  lemma ContactHurtsOnce(vs: seq<MonsterView>, s: State, px: real, py: real, pz: real, order: Shuffle, j: nat)
    requires FirstContact(vs, px, py, pz, 0) == Some(j)
    ensures var r := Contact(vs, s, px, py, pz, false, order);
      var damage := DamageAfterDefence(MonsterTable(vs[j].kind).atk, s.run.stats.def);
      && r.2
      && r.1.run.stats == s.run.stats.(hp := Max(0.0, s.run.stats.hp - damage))
      && (r.1.run.stats.hp <= s.run.stats.hp - 1.0 || r.1.run.stats.hp == 0.0)
      && (forall k :: 0 <= k < |vs| && k != j ==> r.0[k] == vs[k])
      && (THORNS in s.run.passives ==> r.0[j].hp == vs[j].hp - damage * THORNS_VALUE)
      && (THORNS !in s.run.passives ==> r.0 == vs)
  {
    var damage := DamageAfterDefence(MonsterTable(vs[j].kind).atk, s.run.stats.def);
    var hurt := TakeDamage(s, MonsterTable(vs[j].kind).atk);
    assert hurt.1 == damage;
    if THORNS in s.run.passives {
      RewardKeepsStats(vs[j], damage * THORNS_VALUE, hurt.0, order);
    }
  }

  /** A blow's reward leaves the player's stats alone. */
  lemma RewardKeepsStats(v: MonsterView, amount: real, s: State, order: Shuffle)
    ensures StoreAfterBlow(v, amount, s, order).run.stats == s.run.stats
  {
  }

  // ---------------------------------------------------------------- artifact pick-up

  predicate Near(a: ArtifactView, px: real, py: real, pz: real) {
    Within(Dist2(px, py, pz, a.x, a.y, a.z), PICKUP_RANGE)
  }

  /**
   * The artifact pass of checkCollisions over the first k artifacts: every artifact within
   * PICKUP_RANGE is interacted with, which collects it and, unless it was collected already,
   * applies its effect with the chest draws of its position in the list.
   */
  function PickUps(avs: seq<ArtifactView>, s: State, px: real, py: real, pz: real, draws: nat -> ChestDraw,
                   order: Shuffle, k: nat): (r: (seq<ArtifactView>, State))
    requires k <= |avs|
    ensures |r.0| == |avs|
    decreases k
  {
    if k == 0 then (avs, s)
    else
      var prev := PickUps(avs, s, px, py, pz, draws, order, k - 1);
      var a := avs[k - 1];
      if Near(a, px, py, pz) then
        (prev.0[k - 1 := a.(collected := true)], if a.collected then prev.1 else EffectOn(prev.1, a.kind, draws(k - 1), order))
      else prev
  }

  /** After the pass over the first k artifacts, exactly those of them near the player are newly collected. */
  lemma {:induction false} PickUpsCollect(avs: seq<ArtifactView>, s: State, px: real, py: real, pz: real,
                                          draws: nat -> ChestDraw, order: Shuffle, k: nat)
    requires k <= |avs|
    ensures forall j :: 0 <= j < |avs| ==>
      PickUps(avs, s, px, py, pz, draws, order, k).0[j] == (if j < k && Near(avs[j], px, py, pz) then avs[j].(collected := true) else avs[j])
  {
    if k > 0 {
      PickUpsCollect(avs, s, px, py, pz, draws, order, k - 1);
    }
  }

  /**
   * Overlapping artifacts again is harmless: a second pass from the same place over what the
   * first pass left collects nothing more and leaves the store as it is.
   */
  lemma PickUpsAgain(avs: seq<ArtifactView>, s: State, t: State, px: real, py: real, pz: real,
                     draws: nat -> ChestDraw, order: Shuffle)
    ensures var once := PickUps(avs, s, px, py, pz, draws, order, |avs|).0;
      PickUps(once, t, px, py, pz, draws, order, |avs|) == (once, t)
  {
    var once := PickUps(avs, s, px, py, pz, draws, order, |avs|).0;
    PickUpsCollect(avs, s, px, py, pz, draws, order, |avs|);
    SettledPass(once, t, px, py, pz, draws, order, |avs|);
  }

  /** A pass over artifacts where every near one is already collected changes nothing. */
  lemma {:induction false} SettledPass(avs: seq<ArtifactView>, t: State, px: real, py: real, pz: real,
                                       draws: nat -> ChestDraw, order: Shuffle, k: nat)
    requires k <= |avs|
    requires forall j :: 0 <= j < |avs| && Near(avs[j], px, py, pz) ==> avs[j].collected
    ensures PickUps(avs, t, px, py, pz, draws, order, k) == (avs, t)
  {
    if k > 0 {
      SettledPass(avs, t, px, py, pz, draws, order, k - 1);
      var a := avs[k - 1];
      if Near(a, px, py, pz) {
        assert avs[k - 1 := a.(collected := true)] == avs;
      }
    }
  }

  // ---------------------------------------------------------------- the game

  class Game {
    const player: Players.Player
    const world: WorldMap.VoxelMap
    const monsterManager: MonsterManager
    const artifactManager: ArtifactManager
    const autoSkillManager: AutoSkills.AutoSkillManager

    ghost predicate Valid()
      reads this, monsterManager, artifactManager, autoSkillManager
    {
      monsterManager.Valid() && artifactManager.Valid() && autoSkillManager.Valid()
    }

    /**
     * The game's objects as init creates them: a fresh map decorated from `scenery`, a player and
     * the three managers, with no monsters and no artifacts yet.
     */
    constructor (scenery: WorldMap.DecorationDraws)
      requires scenery.WellDrawn()
      ensures Valid() && fresh(player) && fresh(world) && fresh(monsterManager) && fresh(artifactManager)
      ensures fresh(autoSkillManager)
      ensures monsterManager.monsters == [] && artifactManager.artifacts == []
      ensures world.obstacles == WorldMap.VoxelMap.Decorations(scenery)
    {
      world := new WorldMap.VoxelMap(scenery);
      player := new Players.Player();
      monsterManager := new MonsterManager();
      artifactManager := new ArtifactManager();
      autoSkillManager := new AutoSkills.AutoSkillManager();
    }

    /** handleInput: the player moves only when some axis is non-zero, so move never sees a zero vector. */
    method HandleInput(keys: Keys, delta: real, s: State, root: real -> real, jitterX: real, jitterZ: real)
      requires RootAt(root, 1.0) && RootAt(root, 2.0)
      modifies player
      ensures Axis(keys.d, keys.a) == 0.0 && Axis(keys.s, keys.w) == 0.0 ==> unchanged(player)
      ensures Axis(keys.d, keys.a) != 0.0 || Axis(keys.s, keys.w) != 0.0 ==>
        (player.x, player.z) == Players.MoveTo(world.obstacles, old(player.x), old(player.z),
          Axis(keys.d, keys.a), Axis(keys.s, keys.w), delta, s.run.stats.spd, root, jitterX, jitterZ)
      ensures OnMap(player.x, player.z) || unchanged(player)
      ensures player.y == old(player.y) && player.invincible == old(player.invincible)
    {
      var moveX := Axis(keys.d, keys.a);
      var moveZ := Axis(keys.s, keys.w);
      if moveX != 0.0 || moveZ != 0.0 {
        assert moveX * moveX + moveZ * moveZ == 1.0 || moveX * moveX + moveZ * moveZ == 2.0;
        player.Move(moveX, moveZ, delta, s.run.stats.spd, world.obstacles, root, jitterX, jitterZ);
      }
    }

    /**
     * The monster half of checkCollisions, walking the list in order. The result is Contact's
     * for the monsters and the player's flag as they were.
     */
    method MonsterContacts(ms: seq<Monster>, s: State, order: Shuffle) returns (t: State)
      requires Distinct(ms)
      modifies player, ms
      ensures Views(ms) == Contact(old(Views(ms)), s, player.x, player.y, player.z, old(player.invincible), order).0
      ensures t == Contact(old(Views(ms)), s, player.x, player.y, player.z, old(player.invincible), order).1
      ensures player.invincible == Contact(old(Views(ms)), s, player.x, player.y, player.z, old(player.invincible), order).2
      ensures (player.x, player.y, player.z) == old((player.x, player.y, player.z))
    {
      ghost var vs := Views(ms);
      ghost var goal := Contact(vs, s, player.x, player.y, player.z, player.invincible, order);
      t := s;
      for i := 0 to |ms|
        invariant (player.x, player.y, player.z) == old((player.x, player.y, player.z))
        invariant player.invincible ==> Views(ms) == goal.0 && t == goal.1 && goal.2
        invariant !player.invincible ==> Views(ms) == vs && t == s && !old(player.invincible)
        invariant !player.invincible ==> forall k :: 0 <= k < i ==> !Touches(vs[k], player.x, player.y, player.z)
      {
        var m := ms[i];
        if m.dead {
          continue;
        }
        if Within(Dist2(player.x, player.y, player.z, m.x, m.y, m.z), CONTACT_RANGE) && !player.invincible {
          assert Touches(vs[i], player.x, player.y, player.z);
          FirstContactAt(vs, player.x, player.y, player.z, 0, i);
          t := TakeHit(ms, i, s, order);
        }
      }
    }

    /** The one monster that hurts the player in a pass: takeDamage, onHit, then thorns. */
    method TakeHit(ms: seq<Monster>, i: nat, s: State, order: Shuffle) returns (t: State)
      requires Distinct(ms) && i < |ms| && !player.invincible
      requires FirstContact(Views(ms), player.x, player.y, player.z, 0) == Some(i)
      modifies player, ms[i]
      ensures Views(ms) == Contact(old(Views(ms)), s, player.x, player.y, player.z, false, order).0
      ensures t == Contact(old(Views(ms)), s, player.x, player.y, player.z, false, order).1
      ensures player.invincible
      ensures (player.x, player.y, player.z) == old((player.x, player.y, player.z))
    {
      var hurt := TakeDamage(s, MonsterTable(ms[i].kind).atk);
      t := hurt.0;
      player.OnHit();
      if THORNS in s.run.passives {
        t := StrikeOne(ms, i, hurt.1 * THORNS_VALUE, t, order);
      }
    }

    /** The artifact half of checkCollisions: every listed artifact near the player is interacted with. */
    method ArtifactPickups(list: seq<Artifact>, s: State, px: real, py: real, pz: real, draws: nat -> ChestDraw,
                           order: Shuffle) returns (t: State)
      requires Unique(list)
      modifies list
      ensures ArtifactViews(list) == PickUps(old(ArtifactViews(list)), s, px, py, pz, draws, order, |list|).0
      ensures t == PickUps(old(ArtifactViews(list)), s, px, py, pz, draws, order, |list|).1
    {
      ghost var avs := ArtifactViews(list);
      t := s;
      for i := 0 to |list|
        invariant ArtifactViews(list) == PickUps(avs, s, px, py, pz, draws, order, i).0
        invariant t == PickUps(avs, s, px, py, pz, draws, order, i).1
      {
        var a := list[i];
        PickUpsCollect(avs, s, px, py, pz, draws, order, i);
        if Within(Dist2(px, py, pz, a.x, a.y, a.z), PICKUP_RANGE) {
          ghost var before := ArtifactViews(list);
          t := artifactManager.Interact(a, t, draws(i), order);
          assert forall j :: 0 <= j < |list| && j != i ==> list[j].View() == before[j];
        }
      }
    }

    /**
     * checkCollisions: nothing outside 'playing'; otherwise the monster pass and then the
     * artifact pass over the listed artifacts, from where the player stands.
     */
    method CheckCollisions(s: State, order: Shuffle, draws: nat -> ChestDraw) returns (t: State)
      requires Valid()
      modifies player, monsterManager.monsters, artifactManager.artifacts
      ensures s.phase != Playing ==> t == s && unchanged(player) && unchanged(monsterManager.monsters)
      ensures s.phase != Playing ==> unchanged(artifactManager.artifacts)
      ensures s.phase == Playing ==>
        var c := Contact(old(Views(monsterManager.monsters)), s, player.x, player.y, player.z, old(player.invincible), order);
        && Views(monsterManager.monsters) == c.0 && player.invincible == c.2
        && ArtifactViews(artifactManager.artifacts) ==
             PickUps(old(ArtifactViews(artifactManager.artifacts)), c.1, player.x, player.y, player.z, draws, order,
                     |artifactManager.artifacts|).0
        && t == PickUps(old(ArtifactViews(artifactManager.artifacts)), c.1, player.x, player.y, player.z, draws, order,
                        |artifactManager.artifacts|).1
      ensures (player.x, player.y, player.z) == old((player.x, player.y, player.z))
    {
      if s.phase != Playing {
        return s;
      }
      t := MonsterContacts(monsterManager.monsters, s, order);
      t := ArtifactPickups(artifactManager.artifacts, t, player.x, player.y, player.z, draws, order);
    }

    /**
     * The gameplay branch of animate: outside 'playing' nothing happens; otherwise, in this order,
     * the day timer, the skill cooldowns, the keyboard, the player, the monsters (with the day
     * the timer left), the artifacts, the auto-skills and the collision passes.
     */
    method Animate(s: State, f: Frame, order: Shuffle, root: real -> real, cos: real -> real, sin: real -> real)
      returns (t: State)
      requires Valid() && f.delta >= 0.0
      requires RootAt(root, 1.0) && RootAt(root, 2.0)
      requires |f.spawnDraws| == 2 && Drawn(f.spawnDraws[0]) && Drawn(f.spawnDraws[1])
      requires |f.skillDraws| == |s.run.autoSkills| && forall k :: 0 <= k < |f.skillDraws| ==> 0.0 <= f.skillDraws[k] < 1.0
      modifies player, monsterManager, monsterManager.monsters, artifactManager, artifactManager.artifacts
      modifies autoSkillManager
      ensures Valid()
      ensures s.phase != Playing ==> t == s && unchanged(player, monsterManager, artifactManager, autoSkillManager)
      ensures s.phase != Playing ==> unchanged(monsterManager.monsters) && unchanged(artifactManager.artifacts)
      ensures s.phase == Playing ==> monsterManager.lastDay == UpdateTimer(s, f.delta).run.day
      ensures s.phase == Playing ==> player.y == 0.0
      ensures s.phase == Playing ==> forall i :: 0 <= i < |artifactManager.artifacts| ==>
        artifactManager.artifacts[i] in old(artifactManager.artifacts)
    {
      if s.phase != Playing {
        return s;
      }
      t := UpdateTimer(s, f.delta);
      t := UpdateSkillCooldowns(t, f.delta);
      HandleInput(f.keys, f.delta, t, root, f.jitterX, f.jitterZ);
      player.Update(f.delta);
      MonstersStep(f, t.run.day, root);
      ArtifactsStep();
      t := SkillsStep(f, t, order, root, cos, sin);
      t := CollideStep(t, order, f.chestDraws);
    }

    /** The artifact manager's update, seen from the frame: what is left was there before. */
    method ArtifactsStep()
      requires artifactManager.Valid()
      modifies artifactManager
      ensures artifactManager.Valid()
      ensures forall i :: 0 <= i < |artifactManager.artifacts| ==> artifactManager.artifacts[i] in old(artifactManager.artifacts)
    {
      artifactManager.Update();
    }

    /** The collision passes, seen from the frame: the player does not move and the managers stay valid. */
    method CollideStep(s: State, order: Shuffle, draws: nat -> ChestDraw) returns (t: State)
      requires Valid()
      modifies player, monsterManager.monsters, artifactManager.artifacts
      ensures Valid() && player.y == old(player.y)
    {
      t := CheckCollisions(s, order, draws);
    }

    /** The monster manager's update, seen from the frame: the list stays valid and holds old or new monsters. */
    method MonstersStep(f: Frame, day: int, root: real -> real)
      requires monsterManager.Valid()
      requires |f.spawnDraws| == 2 && Drawn(f.spawnDraws[0]) && Drawn(f.spawnDraws[1])
      modifies monsterManager, monsterManager.monsters
      ensures monsterManager.Valid() && monsterManager.lastDay == day
      ensures forall i :: 0 <= i < |monsterManager.monsters| ==>
        monsterManager.monsters[i] in old(monsterManager.monsters) || fresh(monsterManager.monsters[i])
    {
      monsterManager.Update(f.delta, day, f.countDraw, f.spawnDraws, player.x, player.y, player.z, root, f.bounce);
    }

    /** The auto-skill manager's update over the current monsters, seen from the frame. */
    method SkillsStep(f: Frame, s: State, order: Shuffle, root: real -> real, cos: real -> real, sin: real -> real)
      returns (t: State)
      requires autoSkillManager.Valid() && Distinct(monsterManager.monsters) && f.delta >= 0.0
      requires |f.skillDraws| == |s.run.autoSkills| && forall k :: 0 <= k < |f.skillDraws| ==> 0.0 <= f.skillDraws[k] < 1.0
      modifies autoSkillManager, monsterManager.monsters
      ensures autoSkillManager.Valid()
    {
      t := autoSkillManager.Update(f.delta, s, player.x, player.y, player.z, monsterManager.monsters, order,
                                   f.skillDraws, cos, sin, root);
    }

    /**
     * startNewRun: the managers are emptied, the player goes back to the start, a fresh set of
     * artifacts is placed and the store starts a run.
     */
    method StartNewRun(s: State, draws: seq<(real, real)>) returns (t: State)
      requires Valid() && |draws| == |Layout()|
      modifies player, monsterManager, artifactManager, autoSkillManager
      ensures Valid() && t == StartGame(s)
      ensures monsterManager.monsters == [] && monsterManager.lastDay == 0
      ensures artifactManager.Generated(0, draws, |Layout()|)
      ensures autoSkillManager.cooldowns == map[] && autoSkillManager.orbitals == [] && autoSkillManager.spinningBlades == []
      ensures autoSkillManager.projectiles == [] && autoSkillManager.poisonTickTimer == 0.0 && autoSkillManager.regenTimer == 0.0
      ensures player.x == 0.0 && player.y == 0.0 && player.z == 0.0 && !player.invincible && player.attackTimer == 0.0
    {
      monsterManager.ClearAll();
      artifactManager.ClearAll();
      autoSkillManager.ClearAll();
      player.Reset();
      artifactManager.GenerateArtifacts(draws);
      t := StartGame(s);
    }
  }
}
