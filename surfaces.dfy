/**
 * Whole-buffer views of what pass 1 of `createGeometry` writes: the first
 * `n` corners (or `f` faces) of each output buffer as a sequence, built one
 * corner or one face at a time in the order the loop fills them, given the
 * records the cache hands out. The `...At` lemmas say what each slot holds.
 */
module Surfaces {
  import opened Options
  import opened Vectors
  import opened Oracles
  import opened VertexCache
  import opened FaceShading

  /** The first `n` land corners after pass 1. */
  function LandSurface(ctx: Context, records: seq<VertexInfo>, n: nat): (s: seq<Vec>)
    requires Fits(ctx, records) && n <= |ctx.base|
    ensures |s| == n
  {
    if n == 0 then [] else LandSurface(ctx, records, n - 1) + [LandPos(ctx, records, n - 1)]
  }

  /** The first `n` ocean corners. */
  function OceanSurface(ctx: Context, records: seq<VertexInfo>, n: nat): (s: seq<Vec>)
    requires Fits(ctx, records) && n <= |ctx.base|
    ensures |s| == n
  {
    if n == 0 then [] else OceanSurface(ctx, records, n - 1) + [OceanPos(ctx, records, n - 1)]
  }

  /** The first `n` ocean morph-target corners. */
  function MorphSurface(ctx: Context, records: seq<VertexInfo>, n: nat): (s: seq<Vec>)
    requires Fits(ctx, records) && n <= |ctx.base|
    ensures |s| == n
  {
    if n == 0 then [] else MorphSurface(ctx, records, n - 1) + [MorphPos(ctx, records, n - 1)]
  }

  /** Slot `p` of each corner view holds corner `p`'s position on that surface. */
  lemma {:induction false} SurfacesAt(ctx: Context, records: seq<VertexInfo>, n: nat, p: nat)
    requires Fits(ctx, records) && p < n <= |ctx.base|
    ensures LandSurface(ctx, records, n)[p] == LandPos(ctx, records, p)
    ensures OceanSurface(ctx, records, n)[p] == OceanPos(ctx, records, p)
    ensures MorphSurface(ctx, records, n)[p] == MorphPos(ctx, records, p)
  {
    if p < n - 1 {
      SurfacesAt(ctx, records, n - 1, p);
    }
  }

  /** Vectors as the flat `x, y, z, x, y, z, ...` number list a buffer attribute holds. */
  function Flat(vs: seq<Vec>): (flat: seq<real>)
    ensures |flat| == 3 * |vs|
  {
    if vs == [] then []
    else
      var v := vs[|vs| - 1];
      Flat(vs[..|vs| - 1]) + [v.x, v.y, v.z]
  }

  /** Appending one vector appends its three coordinates. */
  lemma {:induction false} FlatSnoc(vs: seq<Vec>, v: Vec)
    ensures Flat(vs + [v]) == Flat(vs) + [v.x, v.y, v.z]
  {
    assert (vs + [v])[..|vs|] == vs;
  }

  /** Taking one more vector takes its three coordinates. */
  lemma {:induction false} FlatTake(vs: seq<Vec>, p: nat)
    requires p < |vs|
    ensures Flat(vs[..p + 1]) == Flat(vs[..p]) + [vs[p].x, vs[p].y, vs[p].z]
  {
    assert vs[..p + 1] == vs[..p] + [vs[p]];
    FlatSnoc(vs[..p], vs[p]);
  }

  /** A face's morph normal, pushed three times. */
  lemma {:induction false} FlatTriple(vs: seq<Vec>, v: Vec)
    ensures Flat(vs + Triple(v)) == Flat(vs) + [v.x, v.y, v.z] + [v.x, v.y, v.z] + [v.x, v.y, v.z]
  {
    FlatSnoc(vs, v);
    FlatSnoc(vs + [v], v);
    FlatSnoc(vs + [v, v], v);
    assert vs + [v] + [v] == vs + [v, v];
    assert vs + [v, v] + [v] == vs + Triple(v);
  }

  /** Slot `3p + k` of a flat coordinate list is coordinate `k` of vector `p`. */
  lemma {:induction false} FlatAt(vs: seq<Vec>, p: nat, k: nat)
    requires p < |vs| && k < 3
    ensures Flat(vs)[3 * p + k] == Coord(vs[p], k)
  {
    var n := |vs| - 1;
    if p < n {
      FlatAt(vs[..n], p, k);
      assert vs[..n][p] == vs[p];
    }
  }

  /** Each face's vector on its three corners, face after face (flat shading of a non-indexed buffer). */
  function PerCorner(vs: seq<Vec>): (s: seq<Vec>)
    ensures |s| == 3 * |vs|
  {
    if vs == [] then [] else PerCorner(vs[..|vs| - 1]) + Triple(vs[|vs| - 1])
  }

  /** The three corner slots of face `g` hold that face's vector. */
  lemma {:induction false} PerCornerAt(vs: seq<Vec>, g: nat)
    requires g < |vs|
    ensures PerCorner(vs)[3 * g..3 * g + 3] == Triple(vs[g])
  {
    var n := |vs| - 1;
    if g < n {
      PerCornerAt(vs[..n], g);
      assert vs[..n][g] == vs[g];
      assert PerCorner(vs)[3 * g..3 * g + 3] == PerCorner(vs[..n])[3 * g..3 * g + 3];
    }
  }

  /** Corner slot `3g + j` holds face `g`'s vector. */
  lemma {:induction false} PerCornerIndex(vs: seq<Vec>, g: nat, j: nat)
    requires g < |vs| && j < 3
    ensures PerCorner(vs)[3 * g + j] == vs[g]
  {
    var n := |vs| - 1;
    if g < n {
      PerCornerIndex(vs[..n], g, j);
      assert vs[..n][g] == vs[g];
    }
  }

  /** Coordinate `k` of corner slot `3g + j`, flattened, is that coordinate of face `g`'s vector. */
  lemma {:induction false} FlatPerCornerAt(vs: seq<Vec>, g: nat, j: nat, k: nat)
    requires g < |vs| && j < 3 && k < 3
    ensures Flat(PerCorner(vs))[3 * (3 * g + j) + k] == Coord(vs[g], k)
  {
    FlatAt(PerCorner(vs), 3 * g + j, k);
    PerCornerIndex(vs, g, j);
  }

  /** Each face's colour on its nine flat colour slots, face after face. */
  function PerSlot(cs: seq<Color>): (s: seq<real>)
    ensures |s| == 9 * |cs|
  {
    if cs == [] then [] else PerSlot(cs[..|cs| - 1]) + Nine(cs[|cs| - 1])
  }

  /** The nine colour slots of face `g` hold that face's colour. */
  lemma {:induction false} PerSlotAt(cs: seq<Color>, g: nat)
    requires g < |cs|
    ensures PerSlot(cs)[9 * g..9 * g + 9] == Nine(cs[g])
  {
    var n := |cs| - 1;
    if g < n {
      PerSlotAt(cs[..n], g);
      assert cs[..n][g] == cs[g];
      assert PerSlot(cs)[9 * g..9 * g + 9] == PerSlot(cs[..n])[9 * g..9 * g + 9];
    }
  }

  /** The land normals of the first `f` faces. */
  function LandFaceNormals(ctx: Context, records: seq<VertexInfo>, f: nat): (s: seq<Vec>)
    requires Fits(ctx, records) && 3 * f <= |ctx.base|
    ensures |s| == f
  {
    if f == 0 then [] else LandFaceNormals(ctx, records, f - 1) + [LandNormal(ctx, records, f - 1)]
  }

  /** The ocean normals of the first `f` faces. */
  function OceanFaceNormals(ctx: Context, records: seq<VertexInfo>, f: nat): (s: seq<Vec>)
    requires Fits(ctx, records) && 3 * f <= |ctx.base|
    ensures |s| == f
  {
    if f == 0 then [] else OceanFaceNormals(ctx, records, f - 1) + [OceanNormal(ctx, records, f - 1)]
  }

  /** The ocean morph-target normals of the first `f` faces. */
  function MorphFaceNormals(ctx: Context, records: seq<VertexInfo>, f: nat): (s: seq<Vec>)
    requires Fits(ctx, records) && 3 * f <= |ctx.base|
    ensures |s| == f
  {
    if f == 0 then [] else MorphFaceNormals(ctx, records, f - 1) + [MorphNormal(ctx, records, f - 1)]
  }

  /** The land colours of the first `f` faces; black (all slots zero) where `getColor` gave none. */
  function LandFaceColors(ctx: Context, records: seq<VertexInfo>, f: nat): (s: seq<Color>)
    requires ValidContext(ctx) && Fits(ctx, records) && 3 * f <= |ctx.base|
    ensures |s| == f
  {
    if f == 0 then [] else LandFaceColors(ctx, records, f - 1) + [LandColor(ctx, records, f - 1).GetOr(Black)]
  }

  /** The sea colours of the first `f` faces; black where `getSeaColor` gave none. */
  function SeaFaceColors(ctx: Context, records: seq<VertexInfo>, f: nat): (s: seq<Color>)
    requires ValidContext(ctx) && Fits(ctx, records) && 3 * f <= |ctx.base|
    ensures |s| == f
  {
    if f == 0 then [] else SeaFaceColors(ctx, records, f - 1) + [SeaColor(ctx, records, f - 1).GetOr(Black)]
  }

  /** Entry `g` of the land normals is face `g`'s normal. */
  lemma {:induction false} LandFaceNormalsAt(ctx: Context, records: seq<VertexInfo>, f: nat, g: nat)
    requires ValidContext(ctx) && Fits(ctx, records) && 3 * f <= |ctx.base| && g < f
    ensures LandFaceNormals(ctx, records, f)[g] == LandNormal(ctx, records, g)
  {
    if g < f - 1 {
      LandFaceNormalsAt(ctx, records, f - 1, g);
    }
  }

  /** Entry `g` of the ocean normals is face `g`'s ocean normal. */
  lemma {:induction false} OceanFaceNormalsAt(ctx: Context, records: seq<VertexInfo>, f: nat, g: nat)
    requires ValidContext(ctx) && Fits(ctx, records) && 3 * f <= |ctx.base| && g < f
    ensures OceanFaceNormals(ctx, records, f)[g] == OceanNormal(ctx, records, g)
  {
    if g < f - 1 {
      OceanFaceNormalsAt(ctx, records, f - 1, g);
    }
  }

  /** Entry `g` of the morph-target normals is face `g`'s morph normal. */
  lemma {:induction false} MorphFaceNormalsAt(ctx: Context, records: seq<VertexInfo>, f: nat, g: nat)
    requires ValidContext(ctx) && Fits(ctx, records) && 3 * f <= |ctx.base| && g < f
    ensures MorphFaceNormals(ctx, records, f)[g] == MorphNormal(ctx, records, g)
  {
    if g < f - 1 {
      MorphFaceNormalsAt(ctx, records, f - 1, g);
    }
  }

  /** Entry `g` of the land colours is face `g`'s colour, or black. */
  lemma {:induction false} LandFaceColorsAt(ctx: Context, records: seq<VertexInfo>, f: nat, g: nat)
    requires ValidContext(ctx) && Fits(ctx, records) && 3 * f <= |ctx.base| && g < f
    ensures LandFaceColors(ctx, records, f)[g] == LandColor(ctx, records, g).GetOr(Black)
  {
    if g < f - 1 {
      LandFaceColorsAt(ctx, records, f - 1, g);
    }
  }

  /** Entry `g` of the sea colours is face `g`'s sea colour, or black. */
  lemma {:induction false} SeaFaceColorsAt(ctx: Context, records: seq<VertexInfo>, f: nat, g: nat)
    requires ValidContext(ctx) && Fits(ctx, records) && 3 * f <= |ctx.base| && g < f
    ensures SeaFaceColors(ctx, records, f)[g] == SeaColor(ctx, records, g).GetOr(Black)
  {
    if g < f - 1 {
      SeaFaceColorsAt(ctx, records, f - 1, g);
    }
  }

  /** `n` zero slots: a fresh `Float32Array`. */
  function Zeros(n: nat): (s: seq<real>)
    ensures |s| == n
  {
    seq(n, _ => 0.0)
  }

  /** Overwriting the first `|block|` slots of what is left to do, in a buffer whose done part is `done`. */
  lemma {:induction false} Splice<T>(done: seq<T>, rest: seq<T>, block: seq<T>)
    requires |block| <= |rest|
    ensures (done + rest)[..|done|] + block + (done + rest)[|done| + |block|..] == (done + block) + rest[|block|..]
  {
    assert (done + rest)[..|done|] == done;
    assert (done + rest)[|done| + |block|..] == rest[|block|..];
  }

  /** Writing the first slot of what is left to do extends the done part by that value. */
  lemma {:induction false} Advance<T>(done: seq<T>, all: seq<T>, x: T)
    requires |done| < |all|
    ensures (done + all[|done|..])[|done| := x] == (done + [x]) + all[|done| + 1..]
  {
  }

  /** Growing a slice by one element. */
  lemma {:induction false} SliceSnoc<T>(s: seq<T>, i: nat, p: nat)
    requires i <= p < |s|
    ensures s[..p + 1] == s[..p] + [s[p]]
    ensures s[i..p + 1] == s[i..p] + [s[p]]
  {
  }

  /** Zero slots split into nine zero slots (an uncoloured face) and the rest. */
  lemma {:induction false} ZerosSplit(n: nat)
    requires n >= 9
    ensures Zeros(n) == Nine(Black) + Zeros(n - 9)
    ensures Zeros(n)[9..] == Zeros(n - 9)
  {
    assert Zeros(n)[9..] == Zeros(n - 9);
    assert Zeros(n) == Zeros(n)[..9] + Zeros(n)[9..];
  }
}
