/** Small shared vocabulary: optional values, JavaScript's Math.max/Math.min, the map clamp and squared distances. */
module Basics {
  datatype Option<T> = None | Some(value: T)

  /** JavaScript's Math.max on two finite numbers. */
  function Max(a: real, b: real): (r: real)
    ensures r >= a && r >= b
    ensures r == a || r == b
  {
    if a >= b then a else b
  }

  /** JavaScript's Math.min on two finite numbers. */
  function Min(a: real, b: real): (r: real)
    ensures r <= a && r <= b
    ensures r == a || r == b
  {
    if a <= b then a else b
  }

  /** Half the side of the walkable square: MAP_SIZE / 2 - 1. */
  const HALF: real := 24.0

  /** `Math.max(-half, Math.min(half, v))`, the clamp used for the player, dash targets and spawn points. */
  function ClampToMap(v: real): (r: real)
    ensures -HALF <= r <= HALF
    ensures -HALF <= v <= HALF ==> r == v
    ensures v < -HALF ==> r == -HALF
    ensures v > HALF ==> r == HALF
  {
    Max(-HALF, Min(HALF, v))
  }

  /**
   * The positions at which `keep` holds true, in increasing order: which elements, and in which
   * order, a JavaScript `filter` keeps when `keep[i]` is its callback's answer for element i.
   */
  function Kept(keep: seq<bool>): (r: seq<nat>)
    ensures forall a, b :: 0 <= a < b < |r| ==> r[a] < r[b]
    ensures forall i :: 0 <= i < |r| ==> r[i] < |keep| && keep[r[i]]
    ensures forall i :: 0 <= i < |keep| && keep[i] ==> i in r
  {
    if keep == [] then []
    else Kept(keep[..|keep| - 1]) + (if keep[|keep| - 1] then [|keep| - 1] else [])
  }

  /**
   * One step of a filter that keeps order: if `front` lists the kept elements of all but the last
   * element of `s`, then `front` with the last element appended when it is kept lists those of `s`.
   */
  lemma KeptStep<T>(s: seq<T>, keep: seq<bool>, front: seq<T>)
    requires |keep| == |s| > 0
    requires |front| == |Kept(keep[..|s| - 1])|
    requires forall i :: 0 <= i < |front| ==> front[i] == s[Kept(keep[..|s| - 1])[i]]
    ensures var r := front + (if keep[|s| - 1] then [s[|s| - 1]] else []);
      |r| == |Kept(keep)| && forall i :: 0 <= i < |r| ==> r[i] == s[Kept(keep)[i]]
  {
  }

  /** Two joined pairs of sequences that are equal, with equally long first parts, are equal part by part. */
  lemma SplitEqual<T>(a: seq<T>, b: seq<T>, c: seq<T>, d: seq<T>)
    requires a + b == c + d && |a| == |c|
    ensures a == c && b == d
  {
    assert a == (a + b)[..|a|] && c == (c + d)[..|c|];
    assert b == (a + b)[|a|..] && d == (c + d)[|c|..];
  }

  predicate OnMap(x: real, z: real) {
    -HALF <= x <= HALF && -HALF <= z <= HALF
  }

  /** Squared distance in the ground (x, z) plane. */
  function FlatDist2(ax: real, az: real, bx: real, bz: real): real {
    (ax - bx) * (ax - bx) + (az - bz) * (az - bz)
  }

  /** Squared distance in space, as Vector3.distanceTo measures before its square root. */
  function Dist2(x1: real, y1: real, z1: real, x2: real, y2: real, z2: real): real {
    (x1 - x2) * (x1 - x2) + (y1 - y2) * (y1 - y2) + (z1 - z2) * (z1 - z2)
  }

  /**
   * `sqrt(d2) < bound`, stated without a square root: it holds exactly when the bound is
   * positive and the squared distance is below its square.
   */
  predicate Within(d2: real, bound: real) {
    bound > 0.0 && d2 < bound * bound
  }

  /** `root` behaves as Math.sqrt at `a`: non-negative, squaring back to `a`, and positive when `a` is. */
  predicate RootAt(root: real -> real, a: real) {
    root(a) >= 0.0 && root(a) * root(a) == a && (a > 0.0 ==> root(a) > 0.0)
  }
}
