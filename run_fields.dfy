/**
 * The three collection fields of the run record: the auto skills taken, the passives owned and
 * the skill upgrades owned. The frame loop, the player's attacks and the auto-skill engine read
 * all three, but the run record that startGame writes (src/store/gameStore.js:83-97) has none of
 * them, and neither has the store's initial run (43-55). In JavaScript a missing key reads as
 * undefined, and calling a method or reading a property on undefined throws a TypeError.
 *
 * This module models that record as written, and the corrected record the rest of the model
 * uses: GameStore.FreshRun holds all three collections, empty.
 */
module RunFields {
  import opened Config
  import opened GameStore
  import Players

  /** A field read from a JavaScript record: a key the record does not hold reads as undefined. */
  datatype Field = Undefined | Names(names: set<string>)

  /** What evaluating a test on a field gives: a boolean, or the TypeError of touching undefined. */
  datatype Eval = Value(b: bool) | TypeError

  /** How the playing branch of one animate frame ends. */
  datatype FrameEnd = Completed | ThrewInAutoSkills

  const AUTO_SKILLS_KEY: string := "autoSkills"
  const PASSIVES_KEY: string := "passives"
  const SKILL_UPGRADES_KEY: string := "skillUpgrades"

  /** The keys of the run record startGame writes, as written. */
  const STARTED_RUN_KEYS: set<string> :=
    {"day", "timer", "level", "exp", "expToNext", "stats", "items", "skills", "skillCooldowns", "kills", "coinsEarned"}

  /** The keys of the run record with the three collections the game reads added. */
  const RUN_KEYS: set<string> := STARTED_RUN_KEYS + {AUTO_SKILLS_KEY, PASSIVES_KEY, SKILL_UPGRADES_KEY}

  /** `run[key]` on a record with the given keys whose entry under `key` would hold `names`. */
  function Read(keys: set<string>, key: string, names: set<string>): (f: Field)
    ensures f.Undefined? <==> key !in keys
    ensures key in keys ==> f == Names(names)
  {
    if key in keys then Names(names) else Undefined
  }

  /**
   * A membership test on a field: `passives.includes(name)`, `upgrades[name]`, or the visit of
   * `name` by `autoSkills.forEach`. It throws exactly on undefined, and otherwise says whether
   * the name is held.
   */
  function Owns(f: Field, name: string): (r: Eval)
    ensures r.TypeError? <==> f.Undefined?
    ensures f.Names? ==> r == Value(name in f.names)
  {
    match f
    case Undefined => TypeError
    case Names(names) => Value(name in names)
  }

  /**
   * The playing branch of animate as written, from the auto-skill step on: the auto-skill update
   * walks the auto skills and then tests the passives for regeneration; a TypeError there ends the
   * frame, so checkCollisions, which comes after it, does not run.
   */
  function FrameAsWritten(autoSkills: Field, passives: Field): (r: FrameEnd)
    ensures r == Completed <==> autoSkills.Names? && passives.Names?
  {
    if autoSkills.Undefined? then ThrewInAutoSkills
    else if Owns(passives, REGENERATION).TypeError? then ThrewInAutoSkills
    else Completed
  }

  /**
   * The record startGame writes, as written: every playing frame throws in the auto-skill update,
   * before the collision pass, whatever collections were meant; and attack's multi-strike test
   * throws too, after the attack timer was set.
   */
  lemma StartedRunThrows(autoSkills: set<string>, passives: set<string>, upgrades: set<string>)
    ensures FrameAsWritten(Read(STARTED_RUN_KEYS, AUTO_SKILLS_KEY, autoSkills),
                           Read(STARTED_RUN_KEYS, PASSIVES_KEY, passives)) == ThrewInAutoSkills
    ensures Owns(Read(STARTED_RUN_KEYS, SKILL_UPGRADES_KEY, upgrades), MULTI_STRIKE) == TypeError
    ensures Owns(Read(STARTED_RUN_KEYS, PASSIVES_KEY, passives), THORNS) == TypeError
  {
  }

  /** The collections of a run record, read under the corrected keys. */
  function AutoSkillsField(r: Run): (f: Field)
    ensures f.Names? && forall k :: k in f.names <==> k in r.autoSkills
  {
    Read(RUN_KEYS, AUTO_SKILLS_KEY, set k | k in r.autoSkills)
  }

  /**
   * The corrected record, the one GameStore.StartGame writes: every frame of the new run gets past
   * the auto-skill update to the collision pass, and every membership test reads false, so the run
   * starts with no auto skill, no passive (no berserk, lifesteal, thorns or regeneration) and a
   * single strike per attack.
   */
  lemma StartedRunCompletes(s: State, name: string)
    ensures var r := StartGame(s).run;
      && FrameAsWritten(AutoSkillsField(r), Read(RUN_KEYS, PASSIVES_KEY, r.passives)) == Completed
      && Owns(AutoSkillsField(r), name) == Value(false)
      && Owns(Read(RUN_KEYS, PASSIVES_KEY, r.passives), name) == Value(false)
      && Owns(Read(RUN_KEYS, SKILL_UPGRADES_KEY, r.skillUpgrades), name) == Value(false)
      && !Players.Berserk(r.stats, r.passives)
      && Players.Strikes(r.skillUpgrades) == 1
  {
    var r := StartGame(s).run;
    assert r.autoSkills == [];
  }
}
