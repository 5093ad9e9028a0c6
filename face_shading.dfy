/**
 * What pass 1 of `createGeometry` computes for each corner and each face,
 * as functions of the request context: displaced land, ocean and ocean-morph
 * corners, the flat face normals, the face's normalised height and
 * steepness, and its land and sea colours. Also the buffer writes that
 * spread one normal or one colour over the three slots of a face.
 */
module FaceShading {
  import opened Options
  import opened Vectors
  import opened Oracles
  import opened VertexCache

  /**
   * The records the cache hands out, one per corner in buffer order
   * (`calculatedVerticesArray`): corner `p` gets `Info(ctx, p)`.
   */
  function Records(ctx: Context): (rs: seq<VertexInfo>)
    ensures |rs| == |ctx.base|
  {
    RecordsUpTo(ctx, |ctx.base|)
  }

  function RecordsUpTo(ctx: Context, n: nat): (rs: seq<VertexInfo>)
    requires n <= |ctx.base|
    ensures |rs| == n
  {
    if n == 0 then [] else RecordsUpTo(ctx, n - 1) + [Info(ctx, n - 1)]
  }

  lemma {:induction false} RecordsUpToAt(ctx: Context, n: nat, p: nat)
    requires p < n <= |ctx.base|
    ensures RecordsUpTo(ctx, n)[p] == Info(ctx, p)
  {
    if p < n - 1 {
      RecordsUpToAt(ctx, n - 1, p);
    }
  }

  /** Corner `p` receives the cache's record for its key. */
  lemma {:induction false} RecordsAt(ctx: Context, p: nat)
    requires p < |ctx.base|
    ensures Records(ctx)[p] == Info(ctx, p)
  {
    RecordsUpToAt(ctx, |ctx.base|, p);
  }

  /** The records of corners that share a cache key are identical. */
  lemma {:induction false} RecordsAgreeOnKeys(ctx: Context, p: nat, q: nat)
    requires p < |ctx.base| && q < |ctx.base|
    requires ctx.num.key(ctx.base[p]) == ctx.num.key(ctx.base[q])
    ensures Records(ctx)[p] == Records(ctx)[q]
  {
    RecordsAt(ctx, p);
    RecordsAt(ctx, q);
    SeamConsistency(ctx, p, q);
  }

  /** `records` holds one record per corner of the base buffer. */
  predicate Fits(ctx: Context, records: seq<VertexInfo>) {
    |records| == |ctx.base|
  }

  /** `Records(ctx)` are the values the cache's memo table hands out. */
  lemma {:induction false} RecordsAreMemoized(ctx: Context)
    ensures Memoized(Keys(ctx), Computed(ctx), Records(ctx))
  {
    forall p | 0 <= p < |ctx.base|
      ensures Memo(Keys(ctx), Computed(ctx), p) == Records(ctx)[p]
    {
      RecordsAt(ctx, p);
    }
  }

  /** The land corner after pass 1: `v.add(scatter).normalize().multiplyScalar(height)`. */
  function LandPos(ctx: Context, records: seq<VertexInfo>, p: nat): Vec
    requires Fits(ctx, records) && p < |ctx.base|
  {
    Scale(ctx.num.normalize(Add(ctx.base[p], records[p].scatter)), records[p].height)
  }

  /** The ocean morph-target corner: the scattered corner scaled to the sea-morph height. */
  function MorphPos(ctx: Context, records: seq<VertexInfo>, p: nat): Vec
    requires Fits(ctx, records) && p < |ctx.base|
  {
    Scale(ctx.num.normalize(Add(ctx.base[p], records[p].scatter)), records[p].seaMorph)
  }

  /** The ocean corner: the morph-target corner re-scaled to the sea height. */
  function OceanPos(ctx: Context, records: seq<VertexInfo>, p: nat): Vec
    requires Fits(ctx, records) && p < |ctx.base|
  {
    Scale(ctx.num.normalize(MorphPos(ctx, records, p)), records[p].seaHeight)
  }

  /**
   * Corners that start at the same position end at the same place on all
   * three surfaces: the cache hands them the same record.
   */
  lemma {:induction false} CoincidentCornersStayTogether(ctx: Context, p: nat, q: nat)
    requires p < |ctx.base| && q < |ctx.base| && ctx.base[p] == ctx.base[q]
    ensures LandPos(ctx, Records(ctx), p) == LandPos(ctx, Records(ctx), q)
    ensures MorphPos(ctx, Records(ctx), p) == MorphPos(ctx, Records(ctx), q)
    ensures OceanPos(ctx, Records(ctx), p) == OceanPos(ctx, Records(ctx), q)
  {
    RecordsAgreeOnKeys(ctx, p, q);
  }

  /** `crossVectors(b - a, c - a).normalize()` */
  function FaceNormalOf(num: Numerics, a: Vec, b: Vec, c: Vec): Vec {
    num.normalize(Cross(Sub(b, a), Sub(c, a)))
  }

  /** Face `f` has corners `3f`, `3f + 1`, `3f + 2`. */
  predicate IsFace(ctx: Context, records: seq<VertexInfo>, f: nat) {
    Fits(ctx, records) && 3 * f + 3 <= |ctx.base|
  }

  function LandNormal(ctx: Context, records: seq<VertexInfo>, f: nat): Vec
    requires IsFace(ctx, records, f)
  {
    FaceNormalOf(ctx.num, LandPos(ctx, records, 3 * f), LandPos(ctx, records, 3 * f + 1),
                 LandPos(ctx, records, 3 * f + 2))
  }

  function OceanNormal(ctx: Context, records: seq<VertexInfo>, f: nat): Vec
    requires IsFace(ctx, records, f)
  {
    FaceNormalOf(ctx.num, OceanPos(ctx, records, 3 * f), OceanPos(ctx, records, 3 * f + 1),
                 OceanPos(ctx, records, 3 * f + 2))
  }

  function MorphNormal(ctx: Context, records: seq<VertexInfo>, f: nat): Vec
    requires IsFace(ctx, records, f)
  {
    FaceNormalOf(ctx.num, MorphPos(ctx, records, 3 * f), MorphPos(ctx, records, 3 * f + 1),
                 MorphPos(ctx, records, 3 * f + 2))
  }

  /** The face midpoint before displacement. */
  function Mid(ctx: Context, f: nat): Vec
    requires 3 * f + 3 <= |ctx.base|
  {
    Mean3(ctx.base[3 * f], ctx.base[3 * f + 1], ctx.base[3 * f + 2])
  }

  /** The running sum of `height - 1` over the first `j` corners starting at corner `i`. */
  function HeightSum(records: seq<VertexInfo>, i: nat, j: nat): real
    requires i + j <= |records|
  {
    if j == 0 then 0.0 else HeightSum(records, i, j - 1) + (records[i + j - 1].height - 1.0)
  }

  function RealMin(a: real, b: real): real { if a <= b then a else b }
  function RealMax(a: real, b: real): real { if a >= b then a else b }

  /**
   * `Math.min(-avg / min, 0) + Math.max(avg / max, 0)`: the face's mean
   * raw height rescaled by the biome's depth and height extrema.
   */
  function NormalizedHeight(avg: real, min: real, max: real): real
    requires min != 0.0 && max != 0.0
  {
    RealMin(-avg / min, 0.0) + RealMax(avg / max, 0.0)
  }

  /** `normalizedHeight /= 3` and the rescale: the normalised height of a face from its summed corner heights. */
  function FaceHeightOfSum(heightSum: real, min: real, max: real): real
    requires min != 0.0 && max != 0.0
  {
    NormalizedHeight(heightSum / 3.0, min, max)
  }

  /** Sea level maps to 0, whatever the extrema. */
  lemma {:induction false} NormalizedHeightOfSeaLevel(min: real, max: real)
    requires min != 0.0 && max != 0.0
    ensures NormalizedHeight(0.0, min, max) == 0.0
  {
  }

  /**
   * With a negative depth extremum and a positive height extremum, the
   * normalised height keeps the sign of the raw height (below, at or above
   * sea level), is `avg / max` above and `avg / -min` below, and stays in
   * [-1, 1] when the raw height lies between the extrema.
   */
  lemma {:induction false} NormalizedHeightRange(avg: real, min: real, max: real)
    requires min < 0.0 < max
    ensures var h := NormalizedHeight(avg, min, max);
      && (avg >= 0.0 ==> h == avg / max)
      && (avg < 0.0 ==> h == avg / -min)
      && (h < 0.0 <==> avg < 0.0)
      && (h == 0.0 <==> avg == 0.0)
      && (h > 0.0 <==> avg > 0.0)
      && (min <= avg <= max ==> -1.0 <= h <= 1.0)
  {
    var h := NormalizedHeight(avg, min, max);
    var m := -min;
    assert -avg / min == avg / m;
    if avg >= 0.0 {
      assert avg / m >= 0.0;
      assert avg / max >= 0.0;
      assert h == avg / max;
      if avg > 0.0 { assert avg / max > 0.0; }
      if avg <= max { assert avg / max <= max / max; }
    } else {
      assert avg / m < 0.0;
      assert avg / max < 0.0;
      assert h == avg / m;
      if min <= avg { assert -m <= avg; assert avg / m >= -m / m; }
    }
  }

  /** The normalised height of face `f`. */
  function FaceHeight(ctx: Context, records: seq<VertexInfo>, f: nat): real
    requires ValidContext(ctx) && IsFace(ctx, records, f)
  {
    FaceHeightOfSum(HeightSum(records, 3 * f, 3), ctx.min, ctx.max)
  }

  /** `Math.acos(Math.abs(normal.dot(mid)))` */
  function Steepness(ctx: Context, records: seq<VertexInfo>, f: nat): real
    requires IsFace(ctx, records, f)
  {
    ctx.num.acos(Abs(Dot(LandNormal(ctx, records, f), Mid(ctx, f))))
  }

  function LandColor(ctx: Context, records: seq<VertexInfo>, f: nat): Option<Color>
    requires ValidContext(ctx) && IsFace(ctx, records, f)
  {
    ctx.biome.getColor(ColorQuery(Mid(ctx, f), FaceHeight(ctx, records, f), Steepness(ctx, records, f)))
  }

  function SeaColor(ctx: Context, records: seq<VertexInfo>, f: nat): Option<Color>
    requires ValidContext(ctx) && IsFace(ctx, records, f)
  {
    ctx.biome.getSeaColor(SeaColorQuery(Mid(ctx, f), FaceHeight(ctx, records, f)))
  }

  /** The same vector for the three corners of a face. */
  function Triple<T>(v: T): seq<T> {
    [v, v, v]
  }

  /** The same colour for the nine flat colour slots of a face. */
  function Nine(c: Color): seq<real> {
    [c.r, c.g, c.b, c.r, c.g, c.b, c.r, c.g, c.b]
  }

  /** Flat shading: write the same vector to the three slots of the face starting at corner `i`. */
  method FillFace(buffer: array<Vec>, i: nat, v: Vec)
    requires i + 3 <= buffer.Length
    modifies buffer
    ensures buffer[..] == old(buffer[..])[..i] + Triple(v) + old(buffer[..])[i + 3..]
  {
    buffer[i] := v;
    buffer[i + 1] := v;
    buffer[i + 2] := v;
  }

  /**
   * Flat shading: write one colour to the nine flat slots `3i .. 3i + 8` of
   * the face starting at corner `i`.
   */
  method FillFaceColor(colors: array<real>, i: nat, c: Color)
    requires 3 * i + 9 <= colors.Length
    modifies colors
    ensures colors[..] == old(colors[..])[..3 * i] + Nine(c) + old(colors[..])[3 * i + 9..]
  {
    ghost var before := colors[..];
    var k := i * 3;
    colors[k] := c.r;
    colors[k + 1] := c.g;
    colors[k + 2] := c.b;

    colors[k + 3] := c.r;
    colors[k + 4] := c.g;
    colors[k + 5] := c.b;

    colors[k + 6] := c.r;
    colors[k + 7] := c.g;
    colors[k + 8] := c.b;
    ghost var after := before[..k] + Nine(c) + before[k + 9..];
    assert |colors[..]| == |after|;
    forall t | 0 <= t < colors.Length
      ensures colors[t] == after[t]
    {
      if t < k {
      } else if t < k + 9 {
        assert after[t] == Nine(c)[t - k];
      }
    }
  }

}
