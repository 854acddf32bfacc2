/**
 * The progression store (src/store/gameStore.js). Every action of the store replaces the
 * whole record, so each one is a function from the old State to the new one; gainExp, whose
 * source is a while loop, is a method proved equal to the function Climb describes.
 */
module GameStore {
  import opened Basics
  import opened Config

  datatype Phase = Lobby | Playing | Paused | LevelUp | GameOver

  datatype Stats = Stats(hp: real, maxHp: real, atk: real, def: real, spd: real, crit: real, critDmg: real)

  const BASE_STATS: Stats := Stats(100.0, 100.0, 10.0, 0.0, 1.0, 0.05, 1.5)

  /**
   * The per-run record. `autoSkills` keeps the order AutoSkillManager visits it in; `passives` and
   * `skillUpgrades` are only ever tested for membership.
   */
  datatype Run = Run(
    day: int, timer: real, level: int, exp: int, expToNext: int, stats: Stats,
    skillCooldowns: map<string, real>, kills: int, coinsEarned: int,
    autoSkills: seq<string>, passives: set<string>, skillUpgrades: set<string>)

  datatype PermanentStats = PermanentStats(hp: real, atk: real, def: real)

  datatype UpgradeType = HpUpgrade | AtkUpgrade | DefUpgrade

  datatype Upgrades = Upgrades(hp: int, atk: int, def: int)

  /** The persistent account, as loaded. */
  datatype Account = Account(
    level: int, exp: int, coins: int, totalCoins: int,
    permanentStats: PermanentStats, upgrades: Upgrades, highestDay: int)

  const DEFAULT_ACCOUNT: Account :=
    Account(1, 0, 0, 0, PermanentStats(0.0, 0.0, 0.0), Upgrades(0, 0, 0), 0)

  datatype StatKey = HpKey | MaxHpKey | AtkKey | DefKey | SpdKey | CritKey | CritDmgKey

  datatype ChoiceKind = StatBoost | Equipment | SkillPick

  /** A stat or item choice adds `amount` to one stat; a skill choice carries only a tag. */
  datatype Effect = Boost(key: StatKey, amount: real) | Tag(name: string)

  datatype Choice = Choice(kind: ChoiceKind, name: string, effect: Effect)

  datatype State = State(phase: Phase, run: Run, account: Account, showLevelUp: bool, levelUpChoices: seq<Choice>)

  /** The twelve level-up options in the order showLevelUpChoices lists them. */
  const ALL_OPTIONS: seq<Choice> := [
    Choice(StatBoost, "Power Strike", Boost(AtkKey, 5.0)),
    Choice(StatBoost, "Iron Skin", Boost(DefKey, 3.0)),
    Choice(StatBoost, "Vitality", Boost(MaxHpKey, 20.0)),
    Choice(StatBoost, "Swift Foot", Boost(SpdKey, 0.1)),
    Choice(StatBoost, "Precision", Boost(CritKey, 0.05)),
    Choice(Equipment, "Sharp Blade", Boost(AtkKey, 10.0)),
    Choice(Equipment, "Steel Shield", Boost(DefKey, 8.0)),
    Choice(Equipment, "Crit Ring", Boost(CritKey, 0.08)),
    Choice(Equipment, "Wind Boots", Boost(SpdKey, 0.15)),
    Choice(SkillPick, "Recovery", Tag("healBoost")),
    Choice(SkillPick, "Whirlwind", Tag("spinRange")),
    Choice(SkillPick, "Quick Step", Tag("dashCooldown"))
  ]

  /** A result of the random shuffle of the twelve options: some permutation of their indices. */
  predicate IsShuffle(order: seq<int>) {
    && |order| == |ALL_OPTIONS|
    && (forall i :: 0 <= i < |order| ==> 0 <= order[i] < |ALL_OPTIONS|)
    && (forall i, j :: 0 <= i < j < |order| ==> order[i] != order[j])
  }

  type Shuffle = order: seq<int> | IsShuffle(order) witness [0, 1, 2, 3, 4, 5, 6, 7, 8, 9, 10, 11]

  // ---------------------------------------------------------------- invariants

  predicate ValidStats(st: Stats) {
    0.0 <= st.hp <= st.maxHp
  }

  /** What a run record satisfies between actions. */
  predicate ValidRun(r: Run) {
    && r.day >= 1
    && 0.0 < r.timer <= NEXT_DAY_TIMER
    && 1 <= r.level <= MAX_LEVEL
    && 0 <= r.exp
    && r.expToNext == ExpToNext(r.level)
    && (r.level < MAX_LEVEL ==> r.exp < r.expToNext)
    && ValidStats(r.stats)
    && (forall k :: k in r.skillCooldowns ==> r.skillCooldowns[k] >= 0.0)
  }

  /** A loaded account whose permanent bonuses and upgrade levels are not negative. */
  predicate SaneAccount(a: Account) {
    a.permanentStats.hp >= 0.0 && a.upgrades.hp >= 0 && a.upgrades.atk >= 0 && a.upgrades.def >= 0
  }

  // ---------------------------------------------------------------- run lifecycle

  /** The run record of a fresh run with the given starting stats. */
  function FreshRun(stats: Stats): (r: Run)
    ensures r.day == 1 && r.timer == FIRST_DAY_TIMER && r.level == 1 && r.exp == 0
    ensures r.expToNext == ExpToNext(1) == 100
    ensures r.kills == 0 && r.coinsEarned == 0 && r.skillCooldowns == map[]
    ensures r.autoSkills == [] && r.passives == {} && r.skillUpgrades == {}
    ensures ValidStats(stats) ==> ValidRun(r)
  {
    Run(1, FIRST_DAY_TIMER, 1, 0, ExpToNext(1), stats, map[], 0, 0, [], {}, {})
  }

  /** The store as created: the lobby, an account, a default run and no choices on screen. */
  function InitialState(account: Account): (s: State)
    ensures s.phase == Lobby && !s.showLevelUp && s.levelUpChoices == []
    ensures s.account == account && ValidRun(s.run)
  {
    State(Lobby, FreshRun(BASE_STATS), account, false, [])
  }

  /** The starting stats: base stats plus permanent stats plus 10 HP, 2 ATK and 1 DEF per upgrade level. */
  function StartingStats(a: Account): (st: Stats)
    ensures st.hp == st.maxHp == BASE_STATS.maxHp + a.permanentStats.hp + (a.upgrades.hp * 10) as real
    ensures st.atk == BASE_STATS.atk + a.permanentStats.atk + (a.upgrades.atk * 2) as real
    ensures st.def == BASE_STATS.def + a.permanentStats.def + a.upgrades.def as real
    ensures st.spd == BASE_STATS.spd && st.crit == BASE_STATS.crit && st.critDmg == BASE_STATS.critDmg
    ensures SaneAccount(a) ==> ValidStats(st) && st.maxHp >= BASE_STATS.maxHp
  {
    var hp := BASE_STATS.hp + a.permanentStats.hp + (a.upgrades.hp * 10) as real;
    BASE_STATS.(
      hp := hp,
      maxHp := BASE_STATS.maxHp + a.permanentStats.hp + (a.upgrades.hp * 10) as real,
      atk := BASE_STATS.atk + a.permanentStats.atk + (a.upgrades.atk * 2) as real,
      def := BASE_STATS.def + a.permanentStats.def + (a.upgrades.def * 1) as real)
  }

  /** startGame: a fresh run in phase 'playing'; the account and the listed choices are kept. */
  function StartGame(s: State): (t: State)
    ensures t.phase == Playing && !t.showLevelUp
    ensures t.run == FreshRun(StartingStats(s.account))
    ensures t.account == s.account && t.levelUpChoices == s.levelUpChoices
    ensures SaneAccount(s.account) ==> ValidRun(t.run)
  {
    State(Playing, FreshRun(StartingStats(s.account)), s.account, false, s.levelUpChoices)
  }

  /** The account experience a run is worth: 10 per day, 5 per kill and 20 per level. */
  function RunExp(r: Run): (e: int)
    ensures r.day >= 1 && r.kills >= 0 && r.level >= 1 ==> e >= 30
  {
    r.day * 10 + r.kills * 5 + r.level * 20
  }

  /**
   * endGame: folds the run's coins and experience into the account, converts experience into
   * at most one account level, and enters 'gameover'. It has no guard against a second call.
   */
  function EndGame(s: State): (t: State)
    ensures t.phase == GameOver
    ensures t.run == s.run && t.showLevelUp == s.showLevelUp && t.levelUpChoices == s.levelUpChoices
    ensures t.account.coins == s.account.coins + s.run.coinsEarned
    ensures t.account.totalCoins == s.account.totalCoins + s.run.coinsEarned
    ensures t.account.highestDay == Max(s.account.highestDay as real, s.run.day as real).Floor
    ensures t.account.highestDay >= s.account.highestDay && t.account.highestDay >= s.run.day
    ensures t.account.level == s.account.level || t.account.level == s.account.level + 1
    // experience is either kept or exactly one level's worth (old level * 100) is spent on a level
    ensures t.account.exp + (t.account.level - s.account.level) * (s.account.level * 100)
         == s.account.exp + RunExp(s.run)
    ensures t.account.level == s.account.level + 1
        <==> s.account.exp + RunExp(s.run) >= s.account.level * 100
    ensures t.account.permanentStats == s.account.permanentStats && t.account.upgrades == s.account.upgrades
  {
    var a := s.account;
    var earned := s.run.coinsEarned;
    var folded := a.(
      coins := a.coins + earned,
      totalCoins := a.totalCoins + earned,
      exp := a.exp + RunExp(s.run),
      highestDay := if a.highestDay >= s.run.day then a.highestDay else s.run.day);
    var needed := folded.level * 100;
    var leveled := if folded.exp >= needed then folded.(level := folded.level + 1, exp := folded.exp - needed) else folded;
    s.(phase := GameOver, account := leveled)
  }

  /** returnToLobby. */
  function ReturnToLobby(s: State): (t: State)
    ensures t.phase == Lobby && t.run == s.run && t.account == s.account
  {
    s.(phase := Lobby)
  }

  // ---------------------------------------------------------------- day timer

  /**
   * updateTimer: outside 'playing' nothing changes; otherwise the timer counts down by delta,
   * and a countdown that reaches 0 starts the next day with a 60-second timer.
   */
  function UpdateTimer(s: State, delta: real): (t: State)
    ensures s.phase != Playing ==> t == s
    ensures s.phase == Playing ==> t.phase == Playing && t.account == s.account
    ensures s.phase == Playing && s.run.timer - delta <= 0.0 ==>
      t.run == s.run.(day := s.run.day + 1, timer := NEXT_DAY_TIMER)
    ensures s.phase == Playing && s.run.timer - delta > 0.0 ==>
      t.run == s.run.(timer := s.run.timer - delta)
    ensures ValidRun(s.run) && delta >= 0.0 ==> ValidRun(t.run)
  {
    if s.phase != Playing then s
    else
      var newTimer := s.run.timer - delta;
      if newTimer <= 0.0 then s.(run := s.run.(day := s.run.day + 1, timer := NEXT_DAY_TIMER))
      else s.(run := s.run.(timer := newTimer))
  }

  // ---------------------------------------------------------------- health

  /** The damage takeDamage deals: the amount less defence, but never below 1. */
  function DamageAfterDefence(amount: real, def: real): (d: real)
    ensures d >= 1.0 && d >= amount - def
    ensures d == 1.0 || d == amount - def
  {
    Max(1.0, amount - def)
  }

  /**
   * takeDamage: lowers HP by the floored damage, never below 0, and calls endGame when HP is 0.
   * It returns the new store and the damage dealt. Nothing guards it against a finished run.
   */
  function TakeDamage(s: State, amount: real): (r: (State, real))
    ensures r.1 == DamageAfterDefence(amount, s.run.stats.def)
    ensures r.0.run == s.run.(stats := s.run.stats.(hp := Max(0.0, s.run.stats.hp - r.1)))
    ensures r.0.run.stats.hp < s.run.stats.hp || r.0.run.stats.hp == 0.0
    ensures r.0.phase == if r.0.run.stats.hp <= 0.0 then GameOver else s.phase
    ensures r.0.run.stats.hp > 0.0 ==> r.0.account == s.account
    ensures ValidRun(s.run) ==> ValidRun(r.0.run)
  {
    var damage := DamageAfterDefence(amount, s.run.stats.def);
    var newHp := Max(0.0, s.run.stats.hp - damage);
    var hurt := s.(run := s.run.(stats := s.run.stats.(hp := newHp)));
    if newHp <= 0.0 then (EndGame(hurt), damage) else (hurt, damage)
  }

  /**
   * Neither takeDamage nor endGame checks the phase: a second blow after the one that emptied
   * HP ends the run again and pays the run's coins into the account a second time.
   */
  lemma DeathPaysAgain(s: State, first: real, second: real)
    requires s.run.stats.hp - DamageAfterDefence(first, s.run.stats.def) <= 0.0
    ensures var once := TakeDamage(s, first).0;
      var twice := TakeDamage(once, second).0;
      && once.phase == GameOver && once.account.coins == s.account.coins + s.run.coinsEarned
      && twice.phase == GameOver && twice.run.stats.hp == 0.0
      && twice.account.coins == s.account.coins + 2 * s.run.coinsEarned
      && twice.account.totalCoins == s.account.totalCoins + 2 * s.run.coinsEarned
  {
    var once := TakeDamage(s, first).0;
    assert once.run.stats.hp == 0.0;
    assert once.run.coinsEarned == s.run.coinsEarned;
  }

  /** heal: raises HP by the amount, capped at max HP; nothing else changes. */
  function Heal(s: State, amount: real): (t: State)
    ensures t.run == s.run.(stats := s.run.stats.(hp := Min(s.run.stats.maxHp, s.run.stats.hp + amount)))
    ensures t.phase == s.phase && t.account == s.account && t.levelUpChoices == s.levelUpChoices
    ensures t.run.stats.hp <= s.run.stats.maxHp
    ensures amount >= 0.0 && ValidStats(s.run.stats) ==> s.run.stats.hp <= t.run.stats.hp
    ensures amount >= 0.0 && ValidRun(s.run) ==> ValidRun(t.run)
  {
    s.(run := s.run.(stats := s.run.stats.(hp := Min(s.run.stats.maxHp, s.run.stats.hp + amount))))
  }

  // ---------------------------------------------------------------- experience

  /**
   * The state gainExp's loop leaves: (exp, level, expToNext) after paying for levels while the
   * experience covers the requirement and the level is below 20.
   */
  function Climb(exp: int, level: int, toNext: int): (r: (int, int, int))
    ensures r.1 >= level
    ensures r.0 < r.2 || r.1 >= MAX_LEVEL
    ensures r.1 == level ==> r == (exp, level, toNext)
    ensures r.1 > level ==> r.1 <= MAX_LEVEL && r.2 == ExpToNext(r.1)
    ensures exp >= 0 ==> r.0 >= 0
    decreases MAX_LEVEL - level
  {
    if exp >= toNext && level < MAX_LEVEL then Climb(exp - toNext, level + 1, ExpToNext(level + 1))
    else (exp, level, toNext)
  }

  /** One payment of the climb: enough experience below the cap buys a level at the current price. */
  lemma ClimbStep(exp: int, level: int, toNext: int)
    requires exp >= toNext && level < MAX_LEVEL
    ensures Climb(exp, level, toNext) == Climb(exp - toNext, level + 1, ExpToNext(level + 1))
  {
  }

  /** The climb stops at once when the experience does not cover the price or the cap is reached. */
  lemma ClimbStops(exp: int, level: int, toNext: int)
    requires exp < toNext || level >= MAX_LEVEL
    ensures Climb(exp, level, toNext) == (exp, level, toNext)
  {
  }

  /**
   * gainExp as a function: outside 'playing' nothing changes; otherwise experience is added,
   * levels are paid for, and a single level-up prompt is shown when at least one level was gained.
   */
  function GainExpSpec(s: State, amount: int, order: Shuffle): (t: State)
    ensures s.phase != Playing ==> t == s
    ensures t.run.level >= s.run.level
    ensures t.run.stats == s.run.stats && t.run.day == s.run.day && t.run.timer == s.run.timer
    ensures t.run.kills == s.run.kills && t.run.coinsEarned == s.run.coinsEarned
    ensures t.run.skillCooldowns == s.run.skillCooldowns && t.account == s.account
    ensures t.run.level > s.run.level ==> t.phase == LevelUp && t.showLevelUp && |t.levelUpChoices| == 3
    ensures t.run.level == s.run.level ==> t.phase == s.phase && t.levelUpChoices == s.levelUpChoices
    ensures s.phase == Playing && t.run.level < MAX_LEVEL ==> t.run.exp < t.run.expToNext
    ensures ValidRun(s.run) && amount >= 0 ==> ValidRun(t.run)
  {
    if s.phase != Playing then s
    else
      var c := Climb(s.run.exp + amount, s.run.level, s.run.expToNext);
      var gained := s.(run := s.run.(exp := c.0, level := c.1, expToNext := c.2));
      if c.1 > s.run.level then ShowLevelUpChoices(gained, order) else gained
  }

  /** gainExp: experience is added and levels are paid for, then the level-up prompt if any level was gained. */
  method GainExp(s: State, amount: int, order: Shuffle) returns (t: State)
    ensures t == GainExpSpec(s, amount, order)
  {
    if s.phase != Playing {
      return s;
    }
    var newExp, newLevel, newExpToNext := ClimbLoop(s.run.exp + amount, s.run.level, s.run.expToNext);
    t := s.(run := s.run.(exp := newExp, level := newLevel, expToNext := newExpToNext));
    if newLevel > s.run.level {
      t := ShowLevelUpChoices(t, order);
    }
  }

  /** gainExp's while loop over the LEVEL_EXP table: it pays for levels while the experience covers them. */
  method ClimbLoop(exp: int, level: int, toNext: int) returns (newExp: int, newLevel: int, newExpToNext: int)
    ensures newExp == Climb(exp, level, toNext).0
    ensures newLevel == Climb(exp, level, toNext).1
    ensures newExpToNext == Climb(exp, level, toNext).2
  {
    newExp, newLevel, newExpToNext := exp, level, toNext;
    while newExp >= newExpToNext && newLevel < MAX_LEVEL
      invariant Climb(newExp, newLevel, newExpToNext).0 == Climb(exp, level, toNext).0
      invariant Climb(newExp, newLevel, newExpToNext).1 == Climb(exp, level, toNext).1
      invariant Climb(newExp, newLevel, newExpToNext).2 == Climb(exp, level, toNext).2
      decreases MAX_LEVEL - newLevel
    {
      newExp := newExp - newExpToNext;
      newLevel := newLevel + 1;
      newExpToNext := ExpToNext(newLevel);
    }
  }

  lemma OptionsDistinct()
    ensures forall i, j :: 0 <= i < j < |ALL_OPTIONS| ==> ALL_OPTIONS[i] != ALL_OPTIONS[j]
  {
  }

  /** showLevelUpChoices: the first three options of the shuffle, shown in phase 'levelup'. */
  function ShowLevelUpChoices(s: State, order: Shuffle): (t: State)
    ensures t.phase == LevelUp && t.showLevelUp
    ensures |t.levelUpChoices| == 3
    ensures forall i :: 0 <= i < 3 ==> t.levelUpChoices[i] in ALL_OPTIONS
    ensures forall i, j :: 0 <= i < j < 3 ==> t.levelUpChoices[i] != t.levelUpChoices[j]
    ensures t.run == s.run && t.account == s.account
  {
    OptionsDistinct();
    s.(phase := LevelUp, showLevelUp := true,
       levelUpChoices := [ALL_OPTIONS[order[0]], ALL_OPTIONS[order[1]], ALL_OPTIONS[order[2]]])
  }

  /** Adds `amount` to the stat a choice names. */
  function AddToStat(st: Stats, key: StatKey, amount: real): Stats {
    match key
    case HpKey => st.(hp := st.hp + amount)
    case MaxHpKey => st.(maxHp := st.maxHp + amount)
    case AtkKey => st.(atk := st.atk + amount)
    case DefKey => st.(def := st.def + amount)
    case SpdKey => st.(spd := st.spd + amount)
    case CritKey => st.(crit := st.crit + amount)
    case CritDmgKey => st.(critDmg := st.critDmg + amount)
  }

  /** The stats after a stat or item choice: the boost, and a max-HP boost adds the same to HP. */
  function BoostedStats(st: Stats, key: StatKey, amount: real): (r: Stats)
    ensures key != MaxHpKey && key != HpKey ==> r.hp == st.hp && r.maxHp == st.maxHp
    ensures key == MaxHpKey ==> r == st.(maxHp := st.maxHp + amount, hp := st.hp + amount)
    ensures amount >= 0.0 && key != HpKey && ValidStats(st) ==> ValidStats(r)
  {
    var boosted := AddToStat(st, key, amount);
    if key == MaxHpKey && amount != 0.0 then boosted.(hp := boosted.hp + amount) else boosted
  }

  /**
   * selectLevelUpChoice: a stat or item choice changes stats, a skill choice changes nothing;
   * either way play resumes and the prompt closes.
   */
  function SelectLevelUpChoice(s: State, choice: Choice): (t: State)
    ensures t.phase == Playing && !t.showLevelUp && t.levelUpChoices == []
    ensures t.account == s.account && t.run == s.run.(stats := t.run.stats)
    ensures choice.kind == SkillPick || choice.effect.Tag? ==> t.run.stats == s.run.stats
    ensures choice in ALL_OPTIONS && ValidRun(s.run) ==> ValidRun(t.run)
  {
    var stats :=
      if choice.kind != SkillPick && choice.effect.Boost?
      then BoostedStats(s.run.stats, choice.effect.key, choice.effect.amount)
      else s.run.stats;
    s.(phase := Playing, showLevelUp := false, levelUpChoices := [], run := s.run.(stats := stats))
  }

  // ---------------------------------------------------------------- coins and kills

  function AddCoins(s: State, amount: int): (t: State)
    ensures t.run == s.run.(coinsEarned := s.run.coinsEarned + amount)
    ensures t.phase == s.phase && t.account == s.account && t.levelUpChoices == s.levelUpChoices
  {
    s.(run := s.run.(coinsEarned := s.run.coinsEarned + amount))
  }

  function AddKill(s: State): (t: State)
    ensures t.run == s.run.(kills := s.run.kills + 1)
    ensures t.phase == s.phase && t.account == s.account && t.levelUpChoices == s.levelUpChoices
  {
    s.(run := s.run.(kills := s.run.kills + 1))
  }

  // ---------------------------------------------------------------- lobby upgrades

  function UpgradeLevel(u: Upgrades, kind: UpgradeType): int {
    match kind
    case HpUpgrade => u.hp
    case AtkUpgrade => u.atk
    case DefUpgrade => u.def
  }

  function SetUpgradeLevel(u: Upgrades, kind: UpgradeType, level: int): (r: Upgrades)
    ensures UpgradeLevel(r, kind) == level
    ensures forall k :: k != kind ==> UpgradeLevel(r, k) == UpgradeLevel(u, k)
  {
    match kind
    case HpUpgrade => u.(hp := level)
    case AtkUpgrade => u.(atk := level)
    case DefUpgrade => u.(def := level)
  }

  /** The price of the next level of an upgrade: (level + 1) * 100 coins. */
  function UpgradeCost(a: Account, kind: UpgradeType): int {
    (UpgradeLevel(a.upgrades, kind) + 1) * 100
  }

  /**
   * purchaseUpgrade: when the coins cover the price, pay it and raise that upgrade by one level
   * and report true; otherwise report false and change nothing. There is no level cap.
   */
  function PurchaseUpgrade(s: State, kind: UpgradeType): (r: (State, bool))
    ensures r.1 <==> s.account.coins >= UpgradeCost(s.account, kind)
    ensures !r.1 ==> r.0 == s
    ensures r.1 ==> r.0.account.coins == s.account.coins - UpgradeCost(s.account, kind)
    ensures r.1 ==> UpgradeLevel(r.0.account.upgrades, kind) == UpgradeLevel(s.account.upgrades, kind) + 1
    ensures forall k :: k != kind ==> UpgradeLevel(r.0.account.upgrades, k) == UpgradeLevel(s.account.upgrades, k)
    ensures r.0.phase == s.phase && r.0.run == s.run
    ensures r.0.account.totalCoins == s.account.totalCoins && r.0.account.level == s.account.level
    ensures s.account.coins >= 0 ==> r.0.account.coins >= 0
  {
    var a := s.account;
    var cost := UpgradeCost(a, kind);
    if a.coins >= cost then
      var level := UpgradeLevel(a.upgrades, kind);
      (s.(account := a.(coins := a.coins - cost, upgrades := SetUpgradeLevel(a.upgrades, kind, level + 1))), true)
    else (s, false)
  }

  // ---------------------------------------------------------------- skill cooldowns

  /** setSkillCooldown: sets one entry of the cooldown map. */
  function SetSkillCooldown(s: State, skill: string, time: real): (t: State)
    ensures t.run.skillCooldowns.Keys == s.run.skillCooldowns.Keys + {skill}
    ensures t.run.skillCooldowns[skill] == time
    ensures forall k :: k in s.run.skillCooldowns && k != skill ==> t.run.skillCooldowns[k] == s.run.skillCooldowns[k]
    ensures t.run == s.run.(skillCooldowns := t.run.skillCooldowns) && t.phase == s.phase && t.account == s.account
    ensures time >= 0.0 && ValidRun(s.run) ==> ValidRun(t.run)
  {
    s.(run := s.run.(skillCooldowns := s.run.skillCooldowns[skill := time]))
  }

  /**
   * updateSkillCooldowns: every existing entry counts down by delta and stops at 0; no entry
   * is added or removed.
   */
  function UpdateSkillCooldowns(s: State, delta: real): (t: State)
    ensures t.run.skillCooldowns.Keys == s.run.skillCooldowns.Keys
    ensures forall k :: k in t.run.skillCooldowns ==>
      t.run.skillCooldowns[k] >= 0.0 && t.run.skillCooldowns[k] >= s.run.skillCooldowns[k] - delta
    ensures forall k :: k in t.run.skillCooldowns ==>
      t.run.skillCooldowns[k] == 0.0 || t.run.skillCooldowns[k] == s.run.skillCooldowns[k] - delta
    ensures delta >= 0.0 ==> forall k :: k in t.run.skillCooldowns ==>
      t.run.skillCooldowns[k] <= s.run.skillCooldowns[k] || t.run.skillCooldowns[k] == 0.0
    ensures t.run == s.run.(skillCooldowns := t.run.skillCooldowns) && t.phase == s.phase && t.account == s.account
    ensures ValidRun(s.run) ==> ValidRun(t.run)
  {
    var cds := s.run.skillCooldowns;
    s.(run := s.run.(skillCooldowns := map k | k in cds :: Max(0.0, cds[k] - delta)))
  }
}
