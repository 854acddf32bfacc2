/**
 * Obstacles of the world (src/world/Map.js): the first-hit circle query, the push-out point,
 * and the registration of trees and rocks while decorating the map.
 */
module WorldMap {
  import opened Basics

  datatype ObstacleKind = Tree | Rock

  datatype Obstacle = Obstacle(x: real, z: real, radius: real, kind: ObstacleKind)

  /** The circle of `radius` at (x, z) overlaps the obstacle: centre distance < radius + obstacle radius. */
  predicate Overlaps(o: Obstacle, x: real, z: real, radius: real) {
    Within(FlatDist2(x, z, o.x, o.z), radius + o.radius)
  }

  /** The index of the first obstacle at or after `k` that overlaps the circle. */
  function FirstOverlap(obstacles: seq<Obstacle>, x: real, z: real, radius: real, k: nat): (r: Option<nat>)
    requires k <= |obstacles|
    ensures r.Some? ==> k <= r.value < |obstacles| && Overlaps(obstacles[r.value], x, z, radius)
    ensures r.Some? ==> forall j :: k <= j < r.value ==> !Overlaps(obstacles[j], x, z, radius)
    ensures r.None? <==> forall j :: k <= j < |obstacles| ==> !Overlaps(obstacles[j], x, z, radius)
    decreases |obstacles| - k
  {
    if k == |obstacles| then None
    else if Overlaps(obstacles[k], x, z, radius) then Some(k)
    else FirstOverlap(obstacles, x, z, radius, k + 1)
  }

  /** checkCollision: the first obstacle, in list order, that the circle overlaps; None for null. */
  function CheckCollision(obstacles: seq<Obstacle>, x: real, z: real, radius: real): (r: Option<Obstacle>)
    ensures r.None? <==> forall j :: 0 <= j < |obstacles| ==> !Overlaps(obstacles[j], x, z, radius)
    ensures r.Some? ==> exists i :: (0 <= i < |obstacles| && obstacles[i] == r.value
      && Overlaps(r.value, x, z, radius)
      && forall j :: 0 <= j < i ==> !Overlaps(obstacles[j], x, z, radius))
  {
    match FirstOverlap(obstacles, x, z, radius, 0)
    case None => None
    case Some(i) => Some(obstacles[i])
  }

  /**
   * The point resolveCollision returns for a circle at (x, z) that overlaps obstacle `o`: jittered
   * by the two random draws when the centre is exactly on the obstacle's centre, otherwise pushed
   * straight away from that centre by the overlap. `root` stands for Math.sqrt.
   */
  function PushOut(o: Obstacle, x: real, z: real, radius: real,
                   root: real -> real, jitterX: real, jitterZ: real): (p: (real, real))
    ensures root(FlatDist2(x, z, o.x, o.z)) == 0.0 && 0.0 <= jitterX < 1.0 && 0.0 <= jitterZ < 1.0 ==>
      -0.25 <= p.0 - x < 0.25 && -0.25 <= p.1 - z < 0.25
  {
    var dx := x - o.x;
    var dz := z - o.z;
    var distance := root(FlatDist2(x, z, o.x, o.z));
    if distance == 0.0 then
      (x + (jitterX - 0.5) * 0.5, z + (jitterZ - 0.5) * 0.5)
    else
      var overlap := radius + o.radius - distance;
      (x + dx / distance * overlap, z + dz / distance * overlap)
  }

  /** resolveCollision: None exactly when checkCollision finds nothing, else the push-out point. */
  function ResolveCollision(obstacles: seq<Obstacle>, x: real, z: real, radius: real,
                            root: real -> real, jitterX: real, jitterZ: real): (r: Option<(real, real)>)
    ensures r.None? <==> CheckCollision(obstacles, x, z, radius).None?
    ensures r.Some? ==>
      r.value == PushOut(CheckCollision(obstacles, x, z, radius).value, x, z, radius, root, jitterX, jitterZ)
  {
    match CheckCollision(obstacles, x, z, radius)
    case None => None
    case Some(o) => Some(PushOut(o, x, z, radius, root, jitterX, jitterZ))
  }

  /**
   * Away from the centre, the pushed point lies exactly `radius + o.radius` from the centre of
   * the obstacle, provided `root` is the square root at that distance.
   */
  lemma PushOutTouches(o: Obstacle, x: real, z: real, radius: real,
                       root: real -> real, jitterX: real, jitterZ: real)
    requires RootAt(root, FlatDist2(x, z, o.x, o.z)) && root(FlatDist2(x, z, o.x, o.z)) != 0.0
    ensures var p := PushOut(o, x, z, radius, root, jitterX, jitterZ);
      FlatDist2(p.0, p.1, o.x, o.z) == (radius + o.radius) * (radius + o.radius)
  {
    var dx, dz := x - o.x, z - o.z;
    var d := root(FlatDist2(x, z, o.x, o.z));
    var reach := radius + o.radius;
    ScaledAway(dx, d, reach);
    ScaledAway(dz, d, reach);
    ScaledLength(dx, dz, d, reach);
  }

  /** Moving `v / d * (reach - d)` further along an offset `v` scales it by reach / d. */
  lemma ScaledAway(v: real, d: real, reach: real)
    requires d > 0.0
    ensures v + v / d * (reach - d) == v * (reach / d)
  {
    assert v / d * (reach - d) == v * (reach / d) - v / d * d;
    assert v / d * d == v;
  }

  /** An offset of length d scaled by reach / d has length reach. */
  lemma ScaledLength(dx: real, dz: real, d: real, reach: real)
    requires d > 0.0 && d * d == dx * dx + dz * dz
    ensures (dx * (reach / d)) * (dx * (reach / d)) + (dz * (reach / d)) * (dz * (reach / d)) == reach * reach
  {
    var k := reach / d;
    assert k * d == reach;
    calc {
      (dx * k) * (dx * k) + (dz * k) * (dz * k);
      (dx * dx + dz * dz) * (k * k);
      (d * d) * (k * k);
      (k * d) * (k * d);
      reach * reach;
    }
  }

  /**
   * The Math.random draws createDecorations consumes for trees and rocks: per attempt, two for the
   * position and, when the attempt is placed, one for the scale.
   */
  datatype DecorationDraws = DecorationDraws(
    treeXs: seq<real>, treeZs: seq<real>, treeScales: seq<real>,
    rockXs: seq<real>, rockZs: seq<real>, rockScales: seq<real>)
  {
    /** One draw per tree attempt (30) and per rock attempt (20). */
    predicate Sized() {
      |treeXs| == |treeZs| == |treeScales| == 30 && |rockXs| == |rockZs| == |rockScales| == 20
    }

    /** Sized, and every draw is one Math.random can return. */
    predicate WellDrawn() {
      && Sized()
      && VoxelMap.Draws(treeXs) && VoxelMap.Draws(treeZs) && VoxelMap.Draws(treeScales)
      && VoxelMap.Draws(rockXs) && VoxelMap.Draws(rockZs) && VoxelMap.Draws(rockScales)
    }
  }

  /**
   * The map's obstacle list. Trees and rocks register a collision circle when they are placed;
   * flowers register none.
   */
  class VoxelMap {
    var obstacles: seq<Obstacle>

    /** createTree's obstacle: trunk radius 0.5 times a scale of 0.8 + draw * 0.4. */
    static function TreeObstacle(x: real, z: real, scaleDraw: real): (o: Obstacle)
      ensures o.kind == Tree && o.x == x && o.z == z
      ensures 0.0 <= scaleDraw < 1.0 ==> 0.4 <= o.radius < 0.6
    {
      Obstacle(x, z, 0.5 * (0.8 + scaleDraw * 0.4), Tree)
    }

    /** createRock's obstacle: radius 0.7 times a scale of 0.5 + draw * 0.8. */
    static function RockObstacle(x: real, z: real, scaleDraw: real): (o: Obstacle)
      ensures o.kind == Rock && o.x == x && o.z == z
      ensures 0.0 <= scaleDraw < 1.0 ==> 0.35 <= o.radius < 0.91
    {
      Obstacle(x, z, 0.7 * (0.5 + scaleDraw * 0.8), Rock)
    }

    /** A decoration coordinate: (draw - 0.5) * MAP_SIZE * 0.9. */
    static function Scatter(draw: real): (v: real)
      ensures 0.0 <= draw < 1.0 ==> -22.5 <= v < 22.5
    {
      (draw - 0.5) * 50.0 * 0.9
    }

    /** Trees are never placed with both |x| < 5 and |z| < 5, around the spawn point. */
    static predicate TreeSpotAllowed(x: real, z: real) {
      !(-5.0 < x < 5.0 && -5.0 < z < 5.0)
    }

    /** Rocks are never placed with both |x| < 3 and |z| < 3. */
    static predicate RockSpotAllowed(x: real, z: real) {
      !(-3.0 < x < 3.0 && -3.0 < z < 3.0)
    }

    /** What every obstacle createDecorations registers satisfies. */
    static predicate Placed(o: Obstacle) {
      && -22.5 <= o.x < 22.5 && -22.5 <= o.z < 22.5
      && (o.kind == Tree ==> TreeSpotAllowed(o.x, o.z) && 0.4 <= o.radius < 0.6)
      && (o.kind == Rock ==> RockSpotAllowed(o.x, o.z) && 0.35 <= o.radius < 0.91)
    }

    static predicate Draws(ds: seq<real>) {
      forall i :: 0 <= i < |ds| ==> 0.0 <= ds[i] < 1.0
    }

    /**
     * The tree attempts among the first k of createDecorations: attempt i scatters treeXs[i] and
     * treeZs[i] into a position and, unless that lands in the 10 by 10 clearing around the spawn
     * point, registers a tree of scale draw treeScales[i].
     */
    static function Trees(d: DecorationDraws, k: nat): seq<Obstacle>
      requires d.Sized() && k <= 30
    {
      if k == 0 then []
      else
        var x, z := Scatter(d.treeXs[k - 1]), Scatter(d.treeZs[k - 1]);
        Trees(d, k - 1) + (if TreeSpotAllowed(x, z) then [TreeObstacle(x, z, d.treeScales[k - 1])] else [])
    }

    /** The rock attempts among the first k: the same, with a 6 by 6 clearing. */
    static function Rocks(d: DecorationDraws, k: nat): seq<Obstacle>
      requires d.Sized() && k <= 20
    {
      if k == 0 then []
      else
        var x, z := Scatter(d.rockXs[k - 1]), Scatter(d.rockZs[k - 1]);
        Rocks(d, k - 1) + (if RockSpotAllowed(x, z) then [RockObstacle(x, z, d.rockScales[k - 1])] else [])
    }

    /** Every obstacle createDecorations registers, trees first, then rocks. */
    static function Decorations(d: DecorationDraws): seq<Obstacle>
      requires d.Sized()
    {
      Trees(d, 30) + Rocks(d, 20)
    }

    /** Each of the first k tree attempts adds at most one tree, placed as Placed says. */
    static lemma {:induction false} TreesPlaced(d: DecorationDraws, k: nat)
      requires d.WellDrawn() && k <= 30
      ensures |Trees(d, k)| <= k
      ensures forall i :: 0 <= i < |Trees(d, k)| ==> Placed(Trees(d, k)[i])
    {
      if k > 0 {
        TreesPlaced(d, k - 1);
        assert 0.0 <= d.treeXs[k - 1] < 1.0 && 0.0 <= d.treeZs[k - 1] < 1.0 && 0.0 <= d.treeScales[k - 1] < 1.0;
      }
    }

    /** Each of the first k rock attempts adds at most one rock, placed as Placed says. */
    static lemma {:induction false} RocksPlaced(d: DecorationDraws, k: nat)
      requires d.WellDrawn() && k <= 20
      ensures |Rocks(d, k)| <= k
      ensures forall i :: 0 <= i < |Rocks(d, k)| ==> Placed(Rocks(d, k)[i])
    {
      if k > 0 {
        RocksPlaced(d, k - 1);
        assert 0.0 <= d.rockXs[k - 1] < 1.0 && 0.0 <= d.rockZs[k - 1] < 1.0 && 0.0 <= d.rockScales[k - 1] < 1.0;
      }
    }

    /**
     * A decorated map holds at most 50 obstacles, each inside the scatter square, clear of the
     * spawn point's clearing and with a radius its kind's scale range allows.
     */
    static lemma DecorationsPlaced(d: DecorationDraws)
      requires d.WellDrawn()
      ensures |Decorations(d)| <= 50
      ensures forall i :: 0 <= i < |Decorations(d)| ==> Placed(Decorations(d)[i])
    {
      TreesPlaced(d, 30);
      RocksPlaced(d, 20);
    }

    /** The map as its constructor leaves it: the ground, then createDecorations on an empty obstacle list. */
    constructor (d: DecorationDraws)
      requires d.WellDrawn()
      ensures obstacles == Decorations(d)
      ensures |obstacles| <= 50 && forall i :: 0 <= i < |obstacles| ==> Placed(obstacles[i])
    {
      obstacles := [];
      new;
      CreateDecorations(d);
      DecorationsPlaced(d);
    }

    method CreateTree(x: real, z: real, scaleDraw: real)
      modifies this
      ensures obstacles == old(obstacles) + [TreeObstacle(x, z, scaleDraw)]
    {
      obstacles := obstacles + [TreeObstacle(x, z, scaleDraw)];
    }

    method CreateRock(x: real, z: real, scaleDraw: real)
      modifies this
      ensures obstacles == old(obstacles) + [RockObstacle(x, z, scaleDraw)]
    {
      obstacles := obstacles + [RockObstacle(x, z, scaleDraw)];
    }

    /**
     * createDecorations: 30 tree attempts, 20 rock attempts and 50 flowers. Attempt i of a kind
     * uses the draws of d at index i; flowers only decorate, so they leave no trace here.
     */
    method CreateDecorations(d: DecorationDraws)
      requires d.Sized()
      modifies this
      ensures obstacles == old(obstacles) + Decorations(d)
    {
      ghost var before := obstacles;
      for i := 0 to 30
        invariant obstacles == before + Trees(d, i)
      {
        var x, z := Scatter(d.treeXs[i]), Scatter(d.treeZs[i]);
        if -5.0 < x < 5.0 && -5.0 < z < 5.0 {
          continue;
        }
        CreateTree(x, z, d.treeScales[i]);
      }
      for i := 0 to 20
        invariant obstacles == before + Trees(d, 30) + Rocks(d, i)
      {
        var x, z := Scatter(d.rockXs[i]), Scatter(d.rockZs[i]);
        if -3.0 < x < 3.0 && -3.0 < z < 3.0 {
          continue;
        }
        CreateRock(x, z, d.rockScales[i]);
      }
    }
  }
}
