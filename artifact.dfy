/**
 * Pick-ups (src/game/Artifact.js). An artifact is an object whose `collected` flag flips once;
 * collecting it applies its table effect to the store. The manager owns the list of artifacts,
 * fills it at the start of a run and drops the collected ones on every update.
 */
module Artifacts {
  import opened Basics
  import opened Config
  import opened GameStore

  /** A value Math.random can return. */
  predicate IsRandom(r: real) {
    0.0 <= r < 1.0
  }

  /** The two Math.random draws a chest spends: which prize, and how much of it. */
  datatype ChestDraw = ChestDraw(roll: real, amount: real)

  datatype ChestPrize = ExpPrize(exp: int) | CoinPrize(coins: int)

  /** The 'random' effect: a roll below 0.5 gives 30 + floor(amount * 50) exp, otherwise 10 + floor(amount * 30) coins. */
  function ChestPrizeOf(d: ChestDraw): (p: ChestPrize)
    ensures p.ExpPrize? <==> d.roll < 0.5
    ensures IsRandom(d.amount) && p.ExpPrize? ==> 30 <= p.exp <= 79
    ensures IsRandom(d.amount) && p.CoinPrize? ==> 10 <= p.coins <= 39
  {
    if d.roll < 0.5 then ExpPrize(30 + (d.amount * 50.0).Floor)
    else CoinPrize(10 + (d.amount * 30.0).Floor)
  }

  /**
   * The store after collect's switch on the effect: 'exp' gains the table value, 'heal' heals it,
   * 'levelup' gains the current expToNext, and 'random' pays the chest prize.
   */
  function EffectOn(s: State, kind: ArtifactKind, d: ChestDraw, order: Shuffle): (t: State)
    ensures t.account == s.account
    ensures t.run.day == s.run.day && t.run.timer == s.run.timer && t.run.kills == s.run.kills
    ensures t.run.skillCooldowns == s.run.skillCooldowns
    ensures kind != Fountain ==> t.run.stats == s.run.stats
    ensures kind == Fountain ==> t.run.level == s.run.level && t.phase == s.phase
    ensures t.run.level >= s.run.level
    ensures s.phase != Playing && kind != Fountain && !(kind == Chest && d.roll >= 0.5) ==> t == s
    ensures kind == Chest && d.roll >= 0.5 ==> t.run.coinsEarned > s.run.coinsEarned || !IsRandom(d.amount)
    ensures kind != Chest || d.roll < 0.5 ==> t.run.coinsEarned == s.run.coinsEarned
  {
    match ArtifactTable(kind)
    case GainExpEffect(e) => GainExpSpec(s, e, order)
    case HealEffect(a) => Heal(s, a)
    case LevelUpEffect => GainExpSpec(s, s.run.expToNext, order)
    case RandomEffect =>
      match ChestPrizeOf(d)
      case ExpPrize(e) => GainExpSpec(s, e, order)
      case CoinPrize(c) => AddCoins(s, c)
  }

  /** Collecting keeps the run record valid: every exp gain is non-negative and the heal is 30. */
  lemma EffectKeepsRunValid(s: State, kind: ArtifactKind, d: ChestDraw, order: Shuffle)
    requires ValidRun(s.run) && IsRandom(d.amount)
    ensures ValidRun(EffectOn(s, kind, d, order).run)
  {
    match ArtifactTable(kind)
    case GainExpEffect(e) =>
    case HealEffect(a) =>
    case LevelUpEffect =>
    case RandomEffect =>
  }

  /** LEVEL_EXP grows with the level up to the cap. */
  lemma ExpToNextGrows(level: int)
    requires 1 <= level < MAX_LEVEL - 1
    ensures ExpToNext(level) < ExpToNext(level + 1)
  {
  }

  /**
   * The altar's gainExp(expToNext) during play, below the level cap, buys exactly one level:
   * the experience already held is kept and the level-up prompt opens.
   */
  lemma AltarGivesOneLevel(s: State, d: ChestDraw, order: Shuffle)
    requires s.phase == Playing && ValidRun(s.run) && s.run.level < MAX_LEVEL
    ensures EffectOn(s, Altar, d, order).run.level == s.run.level + 1
    ensures EffectOn(s, Altar, d, order).run.exp == s.run.exp
    ensures EffectOn(s, Altar, d, order).phase == LevelUp
  {
    var l := s.run.level;
    assert EffectOn(s, Altar, d, order) == GainExpSpec(s, s.run.expToNext, order);
    ClimbStep(s.run.exp + s.run.expToNext, l, s.run.expToNext);
    if l + 1 < MAX_LEVEL {
      ExpToNextGrows(l);
    }
    ClimbStops(s.run.exp, l + 1, ExpToNext(l + 1));
  }

  /** What an artifact holds, as a value. */
  datatype ArtifactView = ArtifactView(kind: ArtifactKind, x: real, y: real, z: real, collected: bool)

  class Artifact {
    const kind: ArtifactKind
    const x: real
    const y: real
    const z: real
    var collected: bool

    function View(): ArtifactView
      reads this
    {
      ArtifactView(kind, x, y, z, collected)
    }

    constructor (kind: ArtifactKind, x: real, y: real, z: real)
      ensures this.kind == kind && this.x == x && this.y == y && this.z == z && !collected
    {
      this.kind := kind;
      this.x, this.y, this.z := x, y, z;
      collected := false;
    }

    /**
     * collect: a collected artifact ignores the call; otherwise it becomes collected and its
     * effect is applied once (see EffectOn).
     */
    method Collect(s: State, d: ChestDraw, order: Shuffle) returns (t: State)
      modifies this
      ensures collected
      ensures old(collected) ==> t == s
      ensures !old(collected) ==> t == EffectOn(s, kind, d, order)
    {
      if collected {
        return s;
      }
      collected := true;
      var effect := ArtifactTable(kind);
      if effect.HealEffect? {
        t := Heal(s, effect.amount);
        assert t == EffectOn(s, kind, d, order);
      } else if effect.RandomEffect? && d.roll >= 0.5 {
        var coins := 10 + (d.amount * 30.0).Floor;
        t := AddCoins(s, coins);
        assert t == EffectOn(s, kind, d, order);
      } else {
        var exp;
        if effect.GainExpEffect? {
          exp := effect.exp;
        } else if effect.LevelUpEffect? {
          exp := s.run.expToNext;
        } else {
          exp := 30 + (d.amount * 50.0).Floor;
          assert ChestPrizeOf(d) == ExpPrize(exp);
        }
        assert EffectOn(s, kind, d, order) == GainExpSpec(s, exp, order);
        t := GainExp(s, exp, order);
      }
    }
  }

  /** No artifact is listed twice. */
  predicate Unique(list: seq<Artifact>) {
    forall i, j :: 0 <= i < j < |list| ==> list[i] != list[j]
  }

  function ArtifactViews(list: seq<Artifact>): (vs: seq<ArtifactView>)
    reads list
    ensures |vs| == |list| && forall i :: 0 <= i < |list| ==> vs[i] == list[i].View()
  {
    seq(|list|, i reads list requires 0 <= i < |list| => list[i].View())
  }

  /** The artifacts of `list` that are not collected, in order (the filter in update). */
  function Uncollected(list: seq<Artifact>): (r: seq<Artifact>)
    reads list
    ensures |r| <= |list|
    ensures forall i :: 0 <= i < |r| ==> r[i] in list && !r[i].collected
    ensures forall i :: 0 <= i < |list| && !list[i].collected ==> list[i] in r
    ensures Unique(list) ==> Unique(r)
  {
    if list == [] then []
    else Uncollected(list[..|list| - 1]) + (if list[|list| - 1].collected then [] else [list[|list| - 1]])
  }

  /** For each artifact of `list`, whether it is still uncollected: the test of update's filter. */
  function WaitingFlags(list: seq<Artifact>): (f: seq<bool>)
    reads list
    ensures |f| == |list| && forall i :: 0 <= i < |list| ==> (f[i] <==> !list[i].collected)
  {
    seq(|list|, i reads list requires 0 <= i < |list| => !list[i].collected)
  }

  /** The filter keeps the order: the i-th artifact left is the one at the i-th uncollected position. */
  lemma {:induction false} UncollectedInOrder(list: seq<Artifact>)
    ensures |Uncollected(list)| == |Kept(WaitingFlags(list))|
    ensures forall i :: 0 <= i < |Uncollected(list)| ==> Uncollected(list)[i] == list[Kept(WaitingFlags(list))[i]]
  {
    if list != [] {
      var n := |list| - 1;
      UncollectedInOrder(list[..n]);
      assert WaitingFlags(list)[..n] == WaitingFlags(list[..n]);
      KeptStep(list, WaitingFlags(list), Uncollected(list[..n]));
    }
  }

  /** The kinds generateArtifacts places, in order: 5 crystals, 3 chests, a fountain, an altar and 20 grass bundles. */
  function Layout(): (kinds: seq<ArtifactKind>)
    ensures |kinds| == 30
  {
    seq(5, _ => Crystal) + seq(3, _ => Chest) + [Fountain, Altar] + seq(20, _ => Grass)
  }

  /** The layout holds each kind as many times as generateArtifacts asks for it. */
  lemma LayoutCounts()
    ensures multiset(Layout())[Crystal] == 5 && multiset(Layout())[Chest] == 3
    ensures multiset(Layout())[Fountain] == 1 && multiset(Layout())[Altar] == 1
    ensures multiset(Layout())[Grass] == 20
  {
    var c, h, g := seq(5, _ => Crystal), seq(3, _ => Chest), seq(20, _ => Grass);
    assert c == [Crystal, Crystal, Crystal, Crystal, Crystal];
    assert h == [Chest, Chest, Chest];
    assert multiset(g)[Grass] == 20 by {
      Repeated(Grass, 20);
    }
    assert multiset(g)[Crystal] == 0 && multiset(g)[Chest] == 0 by {
      Repeated(Grass, 20);
    }
    assert Layout() == c + h + [Fountain, Altar] + g;
  }

  /** A sequence of `n` copies of one kind holds that kind `n` times and nothing else. */
  lemma {:induction false} Repeated(k: ArtifactKind, n: nat)
    ensures multiset(seq(n, _ => k)) == multiset{}[k := n]
  {
    if n > 0 {
      Repeated(k, n - 1);
      assert seq(n, _ => k) == seq(n - 1, _ => k) + [k];
    }
  }

  /** getRandomPosition: each of x and z is (draw - 0.5) * mapSize * 0.8, and y is 0. */
  function RandomPosition(mapSize: real, rx: real, rz: real): (p: (real, real, real))
    ensures p.1 == 0.0
    ensures mapSize > 0.0 && IsRandom(rx) ==> -0.4 * mapSize <= p.0 < 0.4 * mapSize
    ensures mapSize > 0.0 && IsRandom(rz) ==> -0.4 * mapSize <= p.2 < 0.4 * mapSize
  {
    ((rx - 0.5) * mapSize * 0.8, 0.0, (rz - 0.5) * mapSize * 0.8)
  }

  class ArtifactManager {
    var artifacts: seq<Artifact>

    ghost predicate Valid()
      reads this
    {
      Unique(artifacts)
    }

    constructor ()
      ensures Valid() && artifacts == []
    {
      artifacts := [];
    }

    /** update: the per-artifact update only animates; then the collected artifacts are dropped. */
    method Update()
      requires Valid()
      modifies this
      ensures Valid() && artifacts == Uncollected(old(artifacts))
    {
      artifacts := Uncollected(artifacts);
    }

    /** spawnArtifact: a new uncollected artifact at the position, appended to the list. */
    method SpawnArtifact(kind: ArtifactKind, x: real, y: real, z: real) returns (a: Artifact)
      requires Valid()
      modifies this
      ensures Valid()
      ensures fresh(a) && artifacts == old(artifacts) + [a]
      ensures a.kind == kind && a.x == x && a.y == y && a.z == z && !a.collected
    {
      a := new Artifact(kind, x, y, z);
      artifacts := artifacts + [a];
    }

    /**
     * The artifacts from index `base` on are the first `k` entries of Layout, the i-th placed by
     * RandomPosition from draws[i].
     */
    ghost predicate Generated(base: nat, draws: seq<(real, real)>, k: nat)
      reads this, artifacts
    {
      && |artifacts| == base + k && k <= |Layout()| && k <= |draws|
      && forall i :: base <= i < |artifacts| ==> Placed(artifacts[i], Layout()[i - base], draws[i - base])
    }

    /** generateArtifacts: one artifact per entry of Layout, appended in that order. */
    method GenerateArtifacts(draws: seq<(real, real)>)
      requires Valid() && |draws| == |Layout()|
      modifies this
      ensures Valid() && Generated(|old(artifacts)|, draws, |Layout()|)
      ensures artifacts[..|old(artifacts)|] == old(artifacts)
    {
      ghost var base := |artifacts|;
      SpawnRun(Crystal, draws, base, 0, 5);
      SpawnRun(Chest, draws, base, 5, 3);
      SpawnRun(Fountain, draws, base, 8, 1);
      SpawnRun(Altar, draws, base, 9, 1);
      SpawnRun(Grass, draws, base, 10, 20);
    }

    /**
     * One of generateArtifacts' placements: `count` artifacts of one kind, each at the position
     * getRandomPosition makes of the next draw.
     */
    method SpawnRun(kind: ArtifactKind, draws: seq<(real, real)>, ghost base: nat, from: nat, count: nat)
      requires |draws| == |Layout()| && from + count <= |Layout()|
      requires forall j :: from <= j < from + count ==> Layout()[j] == kind
      requires Valid() && Generated(base, draws, from)
      modifies this
      ensures Valid() && Generated(base, draws, from + count)
      ensures artifacts[..|old(artifacts)|] == old(artifacts)
    {
      var n := |artifacts|;
      for i := 0 to count
        invariant Valid() && Generated(base, draws, from + i)
        invariant artifacts[..n] == old(artifacts)
      {
        var p := RandomPosition(MAP_SIZE, draws[from + i].0, draws[from + i].1);
        var a := SpawnArtifact(kind, p.0, p.1, p.2);
      }
    }

    /** interact: collects the artifact. */
    method Interact(a: Artifact, s: State, d: ChestDraw, order: Shuffle) returns (t: State)
      modifies a
      ensures a.collected
      ensures t == if old(a.collected) then s else EffectOn(s, a.kind, d, order)
    {
      t := a.Collect(s, d, order);
    }

    /** clearAll: every artifact is destroyed and the list empties. */
    method ClearAll()
      modifies this
      ensures Valid() && artifacts == []
    {
      artifacts := [];
    }
  }

  /** An uncollected artifact of the kind, placed where getRandomPosition puts the draw. */
  ghost predicate Placed(a: Artifact, kind: ArtifactKind, draw: (real, real))
    reads a
  {
    a.kind == kind && (a.x, a.y, a.z) == RandomPosition(MAP_SIZE, draw.0, draw.1) && !a.collected
  }
}
