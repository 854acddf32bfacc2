/** The balance tables of src/utils/constants.js that the simulation reads. */
module Config {
  // GAME_CONFIG
  const MAP_SIZE: real := 50.0
  const SAFE_DAYS: int := 1
  const PLAYER_SPEED: real := 8.0
  const ATTACK_RANGE: real := 2.5
  const ATTACK_COOLDOWN: real := 0.4
  const SPAWN_DISTANCE_MIN: real := 10.0
  const SPAWN_DISTANCE_MAX: real := 20.0
  const SPAWN_INTERVAL_BASE: real := 3.0
  const SPAWN_INTERVAL_MIN: real := 1.0
  const MAX_MONSTERS: int := 30

  /** The level cap written as a literal in gainExp's loop guard. */
  const MAX_LEVEL: int := 20

  /** The timer of day 1, and the literal the day timer is reset to at each rollover. */
  const FIRST_DAY_TIMER: real := 30.0
  const NEXT_DAY_TIMER: real := 60.0

  // LEVEL_EXP
  const LEVEL_EXP: seq<int> :=
    [0, 100, 150, 200, 300, 400, 500, 650, 800, 1000,
     1200, 1500, 1800, 2200, 2600, 3000, 3500, 4000, 4500, 5000]

  /**
   * `LEVEL_EXP[level] || level * 100`: the table entry when it exists and is not 0
   * (JavaScript treats 0 and undefined as false), otherwise level * 100.
   */
  function ExpToNext(level: int): (r: int)
    ensures level >= 1 ==> r >= 100
    ensures 1 <= level < |LEVEL_EXP| ==> r == LEVEL_EXP[level]
    ensures level >= |LEVEL_EXP| ==> r == level * 100
  {
    if 0 <= level < |LEVEL_EXP| && LEVEL_EXP[level] != 0 then LEVEL_EXP[level] else level * 100
  }

  // MONSTERS
  datatype MonsterKind = Slime | Goblin | Wolf | Skeleton | Orc | Mage

  datatype MonsterStats = MonsterStats(hp: real, atk: real, speed: real, exp: int, coins: int, minDay: int)

  function MonsterTable(kind: MonsterKind): (st: MonsterStats)
    ensures st.hp > 0.0 && st.speed > 0.0 && st.exp > 0 && st.coins > 0 && st.minDay >= 2
  {
    match kind
    case Slime => MonsterStats(20.0, 5.0, 2.0, 10, 5, 2)
    case Goblin => MonsterStats(30.0, 8.0, 4.0, 15, 8, 2)
    case Wolf => MonsterStats(40.0, 12.0, 6.0, 20, 12, 5)
    case Skeleton => MonsterStats(50.0, 10.0, 3.0, 25, 15, 5)
    case Orc => MonsterStats(100.0, 20.0, 2.5, 40, 25, 10)
    case Mage => MonsterStats(60.0, 25.0, 3.0, 50, 30, 10)
  }

  // SPAWN_RULES, keyed by first day; the keys as getAvailableTypes orders them (numerically descending).
  const SPAWN_RULE_KEYS: seq<int> := [15, 10, 5, 2]

  /** The default rule getAvailableTypes starts from. */
  const DEFAULT_RULE_KEY: int := 2

  function SpawnRuleTypes(key: int): seq<MonsterKind> {
    if key == 15 then [Goblin, Wolf, Skeleton, Orc, Mage]
    else if key == 10 then [Slime, Goblin, Wolf, Skeleton, Orc, Mage]
    else if key == 5 then [Slime, Goblin, Wolf, Skeleton]
    else [Slime, Goblin]
  }

  // ARTIFACTS
  datatype ArtifactKind = Crystal | Chest | Fountain | Altar | Grass

  datatype ArtifactEffect = GainExpEffect(exp: int) | RandomEffect | HealEffect(amount: real) | LevelUpEffect

  function ArtifactTable(kind: ArtifactKind): ArtifactEffect {
    match kind
    case Crystal => GainExpEffect(50)
    case Chest => RandomEffect
    case Fountain => HealEffect(30.0)
    case Altar => LevelUpEffect
    case Grass => GainExpEffect(10)
  }

  // SKILLS (active skills, by the name useSkill receives)
  const SPIN_ATTACK: string := "spinAttack"
  const DASH: string := "dash"

  /** `SKILLS[name].cooldown` for a name SKILLS defines. */
  function SkillCooldown(name: string): (r: real)
    requires IsSkill(name)
    ensures r > 0.0
  {
    if name == "spinAttack" then 5.0
    else if name == "dash" then 8.0
    else if name == "heal" then 15.0
    else 6.0
  }

  predicate IsSkill(name: string) {
    name == "spinAttack" || name == "dash" || name == "heal" || name == "fireball"
  }

  const SPIN_DAMAGE: real := 1.5
  const SPIN_RADIUS: real := 3.0
  const DASH_DISTANCE: real := 5.0

  // AUTO_SKILLS, keyed by these ids in the run's autoSkills and in the engine's cooldowns
  const ORBITAL: string := "orbital"
  const FIREBALL: string := "fireball"
  const LIGHTNING: string := "lightning"
  const POISON_AURA: string := "poisonAura"
  const FROST_NOVA: string := "frostNova"
  const SPINNING_BLADES: string := "spinningBlades"

  const ORBITAL_DAMAGE: real := 8.0
  const ORBITAL_COUNT: nat := 2
  const ORBITAL_RADIUS: real := 2.5
  const ORBITAL_SPEED: real := 2.0

  const FIREBALL_DAMAGE: real := 15.0
  const FIREBALL_COOLDOWN: real := 3.0
  const FIREBALL_SPEED: real := 12.0

  const LIGHTNING_DAMAGE: real := 20.0
  const LIGHTNING_COOLDOWN: real := 4.0
  const LIGHTNING_CHAIN_COUNT: nat := 3
  const LIGHTNING_CHAIN_RANGE: real := 5.0

  const POISON_DAMAGE: real := 3.0
  const POISON_TICK_RATE: real := 0.5
  const POISON_RADIUS: real := 4.0

  const FROST_DAMAGE: real := 12.0
  const FROST_COOLDOWN: real := 5.0
  const FROST_RADIUS: real := 5.0
  const FROST_SLOW_AMOUNT: real := 0.5
  const FROST_SLOW_DURATION: real := 2.0

  const BLADES_DAMAGE: real := 6.0
  const BLADES_COUNT: nat := 3
  const BLADES_RADIUS: real := 3.5
  const BLADES_SPEED: real := 3.0

  // PASSIVE_SKILLS
  const LIFESTEAL_VALUE: real := 0.05
  const THORNS_VALUE: real := 0.2
  const REGENERATION_VALUE: real := 1.0
  const BERSERK_THRESHOLD: real := 0.5
  const BERSERK_VALUE: real := 0.3

  // Names by which the run's passive and upgrade collections are consulted.
  const LIFESTEAL: string := "lifesteal"
  const THORNS: string := "thorns"
  const REGENERATION: string := "regeneration"
  const BERSERK: string := "berserk"
  const SPIN_MASTER: string := "spinMaster"
  const DASH_MASTER: string := "dashMaster"
  const MULTI_STRIKE: string := "multiStrike"

  // SKILL_UPGRADES
  const SPIN_MASTER_RADIUS_BONUS: real := 1.0
  const SPIN_MASTER_DAMAGE_BONUS: real := 0.2
  const DASH_MASTER_COOLDOWN_REDUCTION: real := 2.0
  const DASH_MASTER_DISTANCE_BONUS: real := 2.0
  const MULTI_STRIKE_COUNT: nat := 2
}
