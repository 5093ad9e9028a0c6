/**
 * Pass 1 of `createGeometry`: the face loop over the land and ocean
 * icospheres. Every corner is displaced through the vertex cache, each face
 * is flat-shaded on both spheres, the ocean morph target and its normals are
 * recorded, and vegetation is scattered. Each buffer's contents are pinned
 * to the per-corner and per-face functions of `FaceShading`, `Surfaces` and
 * `Vegetation`.
 */
module PassOne {
  import opened Options
  import opened Vectors
  import opened Oracles
  import opened VertexCache
  import opened FaceShading
  import opened Vegetation
  import opened Surfaces

  /**
   * `land`, `ocean` and `morph` hold every corner's displaced position on
   * the land sphere, on the ocean sphere and in the ocean morph target.
   * Stated corner by corner, so it comes into play only where a corner's
   * position function is mentioned.
   */
  ghost predicate Displaced(ctx: Context, records: seq<VertexInfo>,
                            land: seq<Vec>, ocean: seq<Vec>, morph: seq<Vec>)
  {
    && Fits(ctx, records)
    && |land| == |ocean| == |morph| == |ctx.base|
    && (forall p {:trigger LandPos(ctx, records, p)} ::
          0 <= p < |ctx.base| ==> LandPos(ctx, records, p) == land[p])
    && (forall p {:trigger OceanPos(ctx, records, p)} ::
          0 <= p < |ctx.base| ==> OceanPos(ctx, records, p) == ocean[p])
    && (forall p {:trigger MorphPos(ctx, records, p)} ::
          0 <= p < |ctx.base| ==> MorphPos(ctx, records, p) == morph[p])
  }

  /** The corner views of `Surfaces` are those positions. */
  lemma {:induction false} SurfacesAreDisplaced(ctx: Context, records: seq<VertexInfo>)
    requires Fits(ctx, records)
    ensures var n := |ctx.base|;
      Displaced(ctx, records, LandSurface(ctx, records, n), OceanSurface(ctx, records, n),
                MorphSurface(ctx, records, n))
  {
    var n := |ctx.base|;
    forall p | 0 <= p < n
      ensures LandPos(ctx, records, p) == LandSurface(ctx, records, n)[p]
      ensures OceanPos(ctx, records, p) == OceanSurface(ctx, records, n)[p]
      ensures MorphPos(ctx, records, p) == MorphSurface(ctx, records, n)[p]
    {
      SurfacesAt(ctx, records, n, p);
    }
  }

  /**
   * The cache lookup of corner `p`, whose position on both spheres is still
   * the base position, and the resulting land corner, morph target and
   * ocean corner.
   */
  method MoveCorner(ctx: Context, ghost keys: seq<string>, ghost vals: seq<VertexInfo>,
                    ghost records: seq<VertexInfo>,
                    ghost land: seq<Vec>, ghost ocean: seq<Vec>, ghost morph: seq<Vec>,
                    p: nat, v: Vec, oceanV: Vec, cache: map<string, VertexInfo>)
    returns (move: VertexInfo, cache': map<string, VertexInfo>, moved: Vec, morphV: Vec, oceanMoved: Vec)
    requires Tabled(ctx, keys, vals) && Memoized(keys, vals, records)
    requires Displaced(ctx, records, land, ocean, morph)
    requires p < |ctx.base| && v == ctx.base[p] && oceanV == ctx.base[p]
    requires cache == FirstWins(keys, vals, p)
    ensures move == records[p] && cache' == FirstWins(keys, vals, p + 1)
    ensures moved == land[p] && morphV == morph[p] && oceanMoved == ocean[p]
  {
    move, cache' := ResolveVertex(ctx, cache, p, v, keys, vals);
    moved := Scale(ctx.num.normalize(Add(v, move.scatter)), move.height);
    morphV := Scale(ctx.num.normalize(Add(oceanV, move.scatter)), move.seaMorph);
    oceanMoved := Scale(ctx.num.normalize(morphV), move.seaHeight);
    assert moved == LandPos(ctx, records, p);
    assert morphV == MorphPos(ctx, records, p);
    assert oceanMoved == OceanPos(ctx, records, p);
  }

  /**
   * One pass of the corner loop: corner `p`, the first corner not yet
   * displaced, is looked up, displaced on both spheres and written back,
   * and its morph target is appended.
   */
  method DisplaceCorner(ctx: Context, ghost keys: seq<string>, ghost vals: seq<VertexInfo>,
                        ghost records: seq<VertexInfo>,
                        ghost land: seq<Vec>, ghost ocean: seq<Vec>, ghost morph: seq<Vec>,
                        positions: array<Vec>, oceanPositions: array<Vec>, p: nat,
                        cache: map<string, VertexInfo>, morphFlat: seq<real>)
    returns (move: VertexInfo, cache': map<string, VertexInfo>, morphFlat': seq<real>,
             moved: Vec, morphV: Vec, oceanMoved: Vec)
    requires Tabled(ctx, keys, vals) && Memoized(keys, vals, records)
    requires Displaced(ctx, records, land, ocean, morph)
    requires positions != oceanPositions && p < |ctx.base|
    requires positions[..] == land[..p] + ctx.base[p..]
    requires oceanPositions[..] == ocean[..p] + ctx.base[p..]
    requires cache == FirstWins(keys, vals, p) && morphFlat == Flat(morph[..p])
    modifies positions, oceanPositions
    ensures positions[..] == land[..p + 1] + ctx.base[p + 1..]
    ensures oceanPositions[..] == ocean[..p + 1] + ctx.base[p + 1..]
    ensures cache' == FirstWins(keys, vals, p + 1) && morphFlat' == Flat(morph[..p + 1])
    ensures move == records[p] && moved == land[p] && morphV == morph[p] && oceanMoved == ocean[p]
  {
    Advance(land[..p], ctx.base, land[p]);
    Advance(ocean[..p], ctx.base, ocean[p]);
    FlatTake(morph, p);
    move, cache', moved, morphV, oceanMoved :=
      MoveCorner(ctx, keys, vals, records, land, ocean, morph, p, positions[p], oceanPositions[p], cache);
    positions[p] := moved;
    morphFlat' := morphFlat + [morphV.x, morphV.y, morphV.z];
    oceanPositions[p] := oceanMoved;
  }

  /**
   * The corner state once the first `n` corners are done: they are
   * displaced on both spheres (the rest still at the base positions), the
   * cache and the record list cover them, and the morph target holds them.
   */
  ghost predicate CornersDone(ctx: Context, keys: seq<string>, vals: seq<VertexInfo>,
                              records: seq<VertexInfo>,
                              land: seq<Vec>, ocean: seq<Vec>, morph: seq<Vec>, n: nat,
                              positions: seq<Vec>, oceanPositions: seq<Vec>,
                              cache: map<string, VertexInfo>, calculated: seq<VertexInfo>, morphFlat: seq<real>)
  {
    && n <= |ctx.base| && |keys| == |vals| == |records| == |land| == |ocean| == |morph| == |ctx.base|
    && positions == land[..n] + ctx.base[n..]
    && oceanPositions == ocean[..n] + ctx.base[n..]
    && cache == FirstWins(keys, vals, n) && calculated == records[..n]
    && morphFlat == Flat(morph[..n])
  }

  /** A corner that the loop has not reached yet still holds its base position. */
  lemma {:induction false} NotYetMoved(done: seq<Vec>, base: seq<Vec>, n: nat, p: nat)
    requires |done| == n <= p < |base|
    ensures (done + base[n..])[p] == base[p]
  {
  }

  /**
   * The corner loop of the face starting at corner `i`: displaces its three
   * corners and sums `height - 1` over them. Returns the face's displaced
   * corners: `a, b, c` on land, `oceanA, oceanB, oceanC` on the ocean
   * sphere and `oceanD, oceanE, oceanF` in the morph target.
   */
  method DisplaceFace(ctx: Context, ghost keys: seq<string>, ghost vals: seq<VertexInfo>,
                      ghost records: seq<VertexInfo>,
                      ghost land: seq<Vec>, ghost ocean: seq<Vec>, ghost morph: seq<Vec>,
                      positions: array<Vec>, oceanPositions: array<Vec>, i: nat,
                      cache: map<string, VertexInfo>, calculated: seq<VertexInfo>, morphFlat: seq<real>)
    returns (cache': map<string, VertexInfo>, calculated': seq<VertexInfo>, morphFlat': seq<real>,
             heightSum: real, a: Vec, b: Vec, c: Vec,
             oceanA: Vec, oceanB: Vec, oceanC: Vec, oceanD: Vec, oceanE: Vec, oceanF: Vec)
    requires Tabled(ctx, keys, vals) && Memoized(keys, vals, records)
    requires Displaced(ctx, records, land, ocean, morph)
    requires positions != oceanPositions && i + 3 <= |ctx.base|
    requires CornersDone(ctx, keys, vals, records, land, ocean, morph, i,
                         positions[..], oceanPositions[..], cache, calculated, morphFlat)
    modifies positions, oceanPositions
    ensures CornersDone(ctx, keys, vals, records, land, ocean, morph, i + 3,
                        positions[..], oceanPositions[..], cache', calculated', morphFlat')
    ensures heightSum == HeightSum(records, i, 3)
    ensures a == land[i] && b == land[i + 1] && c == land[i + 2]
    ensures oceanA == ocean[i] && oceanB == ocean[i + 1] && oceanC == ocean[i + 2]
    ensures oceanD == morph[i] && oceanE == morph[i + 1] && oceanF == morph[i + 2]
  {
    cache', calculated', morphFlat' := cache, calculated, morphFlat;
    heightSum := 0.0;
    a, b, c := ctx.base[i], ctx.base[i + 1], ctx.base[i + 2];
    oceanA, oceanB, oceanC := a, b, c;
    oceanD, oceanE, oceanF := a, b, c;
    for j := 0 to 3
      invariant positions[..] == land[..i + j] + ctx.base[i + j..]
      invariant oceanPositions[..] == ocean[..i + j] + ctx.base[i + j..]
      invariant cache' == FirstWins(keys, vals, i + j) && calculated' == records[..i + j]
      invariant morphFlat' == Flat(morph[..i + j])
      invariant heightSum == HeightSum(records, i, j)
      invariant j > 0 ==> a == land[i] && oceanA == ocean[i] && oceanD == morph[i]
      invariant j > 1 ==> b == land[i + 1] && oceanB == ocean[i + 1] && oceanE == morph[i + 1]
      invariant j > 2 ==> c == land[i + 2] && oceanC == ocean[i + 2] && oceanF == morph[i + 2]
    {
      var move, moved, morphV, oceanMoved;
      move, cache', morphFlat', moved, morphV, oceanMoved :=
        DisplaceCorner(ctx, keys, vals, records, land, ocean, morph, positions, oceanPositions, i + j,
                       cache', morphFlat');
      SliceSnoc(records, i, i + j);
      calculated' := calculated' + [move];
      heightSum := heightSum + (move.height - 1.0);
      if j == 0 {
        a, oceanA, oceanD := moved, oceanMoved, morphV;
      } else if j == 1 {
        b, oceanB, oceanE := moved, oceanMoved, morphV;
      } else {
        c, oceanC, oceanF := moved, oceanMoved, morphV;
      }
    }
  }

  /**
   * What pass 1 writes besides the corner positions, as fixed targets: the
   * per-corner land, ocean and ocean morph-target normals, the flat land and
   * sea colour slots, and each face as the vegetation loop sees it.
   */
  datatype Shading = Shading(landNormals: seq<Vec>, oceanNormals: seq<Vec>, morphNormals: seq<Vec>,
                             landColors: seq<real>, seaColors: seq<real>, views: seq<FaceView>)

  /** The targets of the whole icosphere. */
  function ShadingOf(ctx: Context, records: seq<VertexInfo>): Shading
    requires ValidContext(ctx) && Fits(ctx, records)
  {
    var faces := |ctx.base| / 3;
    Shading(PerCorner(LandFaceNormals(ctx, records, faces)),
            PerCorner(OceanFaceNormals(ctx, records, faces)),
            PerCorner(MorphFaceNormals(ctx, records, faces)),
            PerSlot(LandFaceColors(ctx, records, faces)),
            PerSlot(SeaFaceColors(ctx, records, faces)),
            Views(ctx, records, faces))
  }

  /**
   * Face `f` of the targets, seen from its corners `a, b, c` on land,
   * `oceanA, oceanB, oceanC` on the ocean sphere and `oceanD, oceanE,
   * oceanF` in the morph target, its undisplaced midpoint `mid` and its
   * normalised height: one normal on its three corners on each surface, its
   * land colour from midpoint, normalised height and steepness, its sea
   * colour from midpoint and normalised height, and its vegetation view.
   */
  ghost predicate FaceTargets(num: Numerics, biome: Biome, sh: Shading, f: nat,
                              mid: Vec, normalizedHeight: real, a: Vec, b: Vec, c: Vec,
                              oceanA: Vec, oceanB: Vec, oceanC: Vec, oceanD: Vec, oceanE: Vec, oceanF: Vec)
  {
    && |sh.landNormals| == |sh.oceanNormals| == |sh.morphNormals|
    && |sh.landColors| == |sh.seaColors| == 3 * |sh.landNormals|
    && 3 * f + 3 <= |sh.landNormals| && f < |sh.views|
    && var i := 3 * f;
       var normal := FaceNormalOf(num, a, b, c);
       var steepness := num.acos(Abs(Dot(normal, mid)));
       && sh.landNormals[i..i + 3] == Triple(normal)
       && sh.landColors[3 * i..3 * i + 9] ==
          Nine(biome.getColor(ColorQuery(mid, normalizedHeight, steepness)).GetOr(Black))
       && sh.oceanNormals[i..i + 3] == Triple(FaceNormalOf(num, oceanA, oceanB, oceanC))
       && sh.seaColors[3 * i..3 * i + 9] ==
          Nine(biome.getSeaColor(SeaColorQuery(mid, normalizedHeight)).GetOr(Black))
       && sh.morphNormals[i..i + 3] == Triple(FaceNormalOf(num, oceanD, oceanE, oceanF))
       && sh.views[f] == FaceView(normalizedHeight, steepness, a)
  }

  /** Face `f` of the targets, seen from its displaced corners. */
  ghost predicate FaceShaded(ctx: Context, records: seq<VertexInfo>,
                             land: seq<Vec>, ocean: seq<Vec>, morph: seq<Vec>, sh: Shading, f: nat)
  {
    && ValidContext(ctx) && Fits(ctx, records) && 3 * f + 3 <= |ctx.base|
    && |land| == |ocean| == |morph| == |sh.landNormals| == |ctx.base|
    && var i := 3 * f;
       FaceTargets(ctx.num, ctx.biome, sh, f, Mid(ctx, f),
                   FaceHeightOfSum(HeightSum(records, i, 3), ctx.min, ctx.max),
                   land[i], land[i + 1], land[i + 2], ocean[i], ocean[i + 1], ocean[i + 2],
                   morph[i], morph[i + 1], morph[i + 2])
  }

  /** Every face of the targets is shaded; stated face by face. */
  ghost predicate Shaded(ctx: Context, records: seq<VertexInfo>,
                         land: seq<Vec>, ocean: seq<Vec>, morph: seq<Vec>, sh: Shading)
  {
    && |sh.landNormals| == |sh.oceanNormals| == |sh.morphNormals| == |ctx.base|
    && |sh.landColors| == |sh.seaColors| == 3 * |ctx.base| && 3 * |sh.views| == |ctx.base|
    && forall f {:trigger FaceShaded(ctx, records, land, ocean, morph, sh, f)} ::
         0 <= f && 3 * f + 3 <= |ctx.base| ==> FaceShaded(ctx, records, land, ocean, morph, sh, f)
  }

  /** The land normal of face `f` from its displaced corners. */
  lemma {:induction false} LandNormalAt(ctx: Context, records: seq<VertexInfo>, land: seq<Vec>, ocean: seq<Vec>, morph: seq<Vec>, f: nat)
    requires Displaced(ctx, records, land, ocean, morph) && 3 * f + 3 <= |ctx.base|
    ensures LandNormal(ctx, records, f) == FaceNormalOf(ctx.num, land[3 * f], land[3 * f + 1], land[3 * f + 2])
  {
    assert LandPos(ctx, records, 3 * f) == land[3 * f];
    assert LandPos(ctx, records, 3 * f + 1) == land[3 * f + 1];
    assert LandPos(ctx, records, 3 * f + 2) == land[3 * f + 2];
  }

  /** The land normals of `ShadingOf` at face `f`. */
  lemma {:induction false} LandNormalsTarget(ctx: Context, records: seq<VertexInfo>, land: seq<Vec>, ocean: seq<Vec>, morph: seq<Vec>, f: nat)
    requires ValidContext(ctx) && Displaced(ctx, records, land, ocean, morph) && 3 * f + 3 <= |ctx.base|
    ensures var i := 3 * f;
      PerCorner(LandFaceNormals(ctx, records, |ctx.base| / 3))[i..i + 3] ==
      Triple(FaceNormalOf(ctx.num, land[i], land[i + 1], land[i + 2]))
  {
    PerCornerAt(LandFaceNormals(ctx, records, |ctx.base| / 3), f);
    LandFaceNormalsAt(ctx, records, |ctx.base| / 3, f);
    LandNormalAt(ctx, records, land, ocean, morph, f);
  }

  /** The ocean normals of `ShadingOf` at face `f`. */
  lemma {:induction false} OceanNormalsTarget(ctx: Context, records: seq<VertexInfo>, land: seq<Vec>, ocean: seq<Vec>, morph: seq<Vec>, f: nat)
    requires ValidContext(ctx) && Displaced(ctx, records, land, ocean, morph) && 3 * f + 3 <= |ctx.base|
    ensures var i := 3 * f;
      PerCorner(OceanFaceNormals(ctx, records, |ctx.base| / 3))[i..i + 3] ==
      Triple(FaceNormalOf(ctx.num, ocean[i], ocean[i + 1], ocean[i + 2]))
  {
    PerCornerAt(OceanFaceNormals(ctx, records, |ctx.base| / 3), f);
    OceanFaceNormalsAt(ctx, records, |ctx.base| / 3, f);
    assert OceanPos(ctx, records, 3 * f) == ocean[3 * f];
    assert OceanPos(ctx, records, 3 * f + 1) == ocean[3 * f + 1];
    assert OceanPos(ctx, records, 3 * f + 2) == ocean[3 * f + 2];
  }

  /** The morph-target normals of `ShadingOf` at face `f`. */
  lemma {:induction false} MorphNormalsTarget(ctx: Context, records: seq<VertexInfo>, land: seq<Vec>, ocean: seq<Vec>, morph: seq<Vec>, f: nat)
    requires ValidContext(ctx) && Displaced(ctx, records, land, ocean, morph) && 3 * f + 3 <= |ctx.base|
    ensures var i := 3 * f;
      PerCorner(MorphFaceNormals(ctx, records, |ctx.base| / 3))[i..i + 3] ==
      Triple(FaceNormalOf(ctx.num, morph[i], morph[i + 1], morph[i + 2]))
  {
    PerCornerAt(MorphFaceNormals(ctx, records, |ctx.base| / 3), f);
    MorphFaceNormalsAt(ctx, records, |ctx.base| / 3, f);
    assert MorphPos(ctx, records, 3 * f) == morph[3 * f];
    assert MorphPos(ctx, records, 3 * f + 1) == morph[3 * f + 1];
    assert MorphPos(ctx, records, 3 * f + 2) == morph[3 * f + 2];
  }

  /** The land colours of `ShadingOf` at face `f`. */
  lemma {:induction false} LandColorsTarget(ctx: Context, records: seq<VertexInfo>, land: seq<Vec>, ocean: seq<Vec>, morph: seq<Vec>, f: nat)
    requires ValidContext(ctx) && Displaced(ctx, records, land, ocean, morph) && 3 * f + 3 <= |ctx.base|
    ensures var i := 3 * f;
      var normal := FaceNormalOf(ctx.num, land[i], land[i + 1], land[i + 2]);
      var normalizedHeight := FaceHeightOfSum(HeightSum(records, i, 3), ctx.min, ctx.max);
      PerSlot(LandFaceColors(ctx, records, |ctx.base| / 3))[3 * i..3 * i + 9] ==
      Nine(ctx.biome.getColor(ColorQuery(Mid(ctx, f), normalizedHeight,
                                         ctx.num.acos(Abs(Dot(normal, Mid(ctx, f)))))).GetOr(Black))
  {
    PerSlotAt(LandFaceColors(ctx, records, |ctx.base| / 3), f);
    LandFaceColorsAt(ctx, records, |ctx.base| / 3, f);
    LandNormalAt(ctx, records, land, ocean, morph, f);
  }

  /** The sea colours of `ShadingOf` at face `f`. */
  lemma {:induction false} SeaColorsTarget(ctx: Context, records: seq<VertexInfo>, f: nat)
    requires ValidContext(ctx) && Fits(ctx, records) && 3 * f + 3 <= |ctx.base|
    ensures var i := 3 * f;
      var normalizedHeight := FaceHeightOfSum(HeightSum(records, i, 3), ctx.min, ctx.max);
      PerSlot(SeaFaceColors(ctx, records, |ctx.base| / 3))[3 * i..3 * i + 9] ==
      Nine(ctx.biome.getSeaColor(SeaColorQuery(Mid(ctx, f), normalizedHeight)).GetOr(Black))
  {
    PerSlotAt(SeaFaceColors(ctx, records, |ctx.base| / 3), f);
    SeaFaceColorsAt(ctx, records, |ctx.base| / 3, f);
  }

  /** The vegetation view of `ShadingOf` at face `f`. */
  lemma {:induction false} ViewTarget(ctx: Context, records: seq<VertexInfo>, land: seq<Vec>, ocean: seq<Vec>, morph: seq<Vec>, f: nat)
    requires ValidContext(ctx) && Displaced(ctx, records, land, ocean, morph) && 3 * f + 3 <= |ctx.base|
    ensures var i := 3 * f;
      var normal := FaceNormalOf(ctx.num, land[i], land[i + 1], land[i + 2]);
      var normalizedHeight := FaceHeightOfSum(HeightSum(records, i, 3), ctx.min, ctx.max);
      Views(ctx, records, |ctx.base| / 3)[f] ==
      FaceView(normalizedHeight, ctx.num.acos(Abs(Dot(normal, Mid(ctx, f)))), land[i])
  {
    ViewsAt(ctx, records, |ctx.base| / 3, f);
    LandNormalAt(ctx, records, land, ocean, morph, f);
    assert LandPos(ctx, records, 3 * f) == land[3 * f];
  }

  /** Face `f` of `ShadingOf` is shaded as its displaced corners say. */
  lemma {:induction false} FaceShadedAt(ctx: Context, records: seq<VertexInfo>,
                     land: seq<Vec>, ocean: seq<Vec>, morph: seq<Vec>, f: nat)
    requires ValidContext(ctx) && Displaced(ctx, records, land, ocean, morph) && 3 * f + 3 <= |ctx.base|
    ensures FaceShaded(ctx, records, land, ocean, morph, ShadingOf(ctx, records), f)
  {
    LandNormalsTarget(ctx, records, land, ocean, morph, f);
    OceanNormalsTarget(ctx, records, land, ocean, morph, f);
    MorphNormalsTarget(ctx, records, land, ocean, morph, f);
    LandColorsTarget(ctx, records, land, ocean, morph, f);
    SeaColorsTarget(ctx, records, f);
    ViewTarget(ctx, records, land, ocean, morph, f);
  }

  /** `ShadingOf` gives the targets of every face. */
  lemma {:induction false} ShadingTargets(ctx: Context, records: seq<VertexInfo>, land: seq<Vec>, ocean: seq<Vec>, morph: seq<Vec>)
    requires ValidContext(ctx) && Displaced(ctx, records, land, ocean, morph)
    ensures Shaded(ctx, records, land, ocean, morph, ShadingOf(ctx, records))
  {
    forall f | 0 <= f && 3 * f + 3 <= |ctx.base|
      ensures FaceShaded(ctx, records, land, ocean, morph, ShadingOf(ctx, records), f)
    {
      FaceShadedAt(ctx, records, land, ocean, morph, f);
    }
  }

  /** The three normal slots of a face take their target value. */
  lemma {:induction false} WriteExtends<T>(before: seq<T>, target: seq<T>, i: nat, v: T)
    requires i + 3 <= |before| && i + 3 <= |target|
    requires before[..i] == target[..i] && target[i..i + 3] == Triple(v)
    ensures (before[..i] + Triple(v) + before[i + 3..])[..i + 3] == target[..i + 3]
  {
    assert target[..i + 3] == target[..i] + target[i..i + 3];
  }

  /**
   * A normal buffer and a colour buffer once the first `n` corners are
   * shaded: the normals agree with `targetNormals` there, the colours with
   * `targetColors` on their slots, and the remaining colour slots are zero.
   */
  ghost predicate ShadedUpTo(targetNormals: seq<Vec>, targetColors: seq<real>, n: nat,
                             normals: seq<Vec>, colors: seq<real>)
  {
    && n <= |targetNormals| == |normals|
    && |colors| == |targetColors| == 3 * |targetNormals|
    && normals[..n] == targetNormals[..n]
    && colors == targetColors[..3 * n] + Zeros(|targetColors| - 3 * n)
  }

  /**
   * The land shading of the face starting at corner `i`, once its corners
   * `a, b, c` are displaced: its normal on all three corners, its steepness
   * against the undisplaced midpoint `mid`, and its colour (written only
   * when the biome gives one).
   */
  method ShadeLand(num: Numerics, biome: Biome, normals: array<Vec>, colors: array<real>, i: nat,
                   ghost landNormals: seq<Vec>, ghost landColors: seq<real>,
                   mid: Vec, normalizedHeight: real, a: Vec, b: Vec, c: Vec)
    returns (steepness: real)
    requires i + 3 <= normals.Length && ShadedUpTo(landNormals, landColors, i, normals[..], colors[..])
    requires var normal := FaceNormalOf(num, a, b, c);
      && landNormals[i..i + 3] == Triple(normal)
      && landColors[3 * i..3 * i + 9] ==
         Nine(biome.getColor(ColorQuery(mid, normalizedHeight, num.acos(Abs(Dot(normal, mid))))).GetOr(Black))
    modifies normals, colors
    ensures ShadedUpTo(landNormals, landColors, i + 3, normals[..], colors[..])
    ensures steepness == num.acos(Abs(Dot(FaceNormalOf(num, a, b, c), mid)))
  {
    var normal := FaceNormalOf(num, a, b, c);
    WriteExtends(normals[..], landNormals, i, normal);
    FillFace(normals, i, normal);

    steepness := num.acos(Abs(Dot(normal, mid)));

    var color := biome.getColor(ColorQuery(mid, normalizedHeight, steepness));
    PaintFace(colors, i, landColors, color);
  }

  /**
   * The ocean shading of the same face: its sea colour (written only when
   * the biome gives one), its ocean normal on all three corners, and its
   * morph-target normal pushed once per corner.
   */
  method ShadeOcean(num: Numerics, biome: Biome, oceanNormals: array<Vec>, oceanColors: array<real>, i: nat,
                    ghost targetNormals: seq<Vec>, ghost seaColors: seq<real>, ghost morphNormals: seq<Vec>,
                    mid: Vec, normalizedHeight: real,
                    oceanA: Vec, oceanB: Vec, oceanC: Vec, oceanD: Vec, oceanE: Vec, oceanF: Vec,
                    morphFlat: seq<real>)
    returns (morphFlat': seq<real>)
    requires i + 3 <= oceanNormals.Length && i + 3 <= |morphNormals|
    requires ShadedUpTo(targetNormals, seaColors, i, oceanNormals[..], oceanColors[..])
    requires morphFlat == Flat(morphNormals[..i])
    requires targetNormals[i..i + 3] == Triple(FaceNormalOf(num, oceanA, oceanB, oceanC))
    requires seaColors[3 * i..3 * i + 9] == Nine(biome.getSeaColor(SeaColorQuery(mid, normalizedHeight)).GetOr(Black))
    requires morphNormals[i..i + 3] == Triple(FaceNormalOf(num, oceanD, oceanE, oceanF))
    modifies oceanNormals, oceanColors
    ensures ShadedUpTo(targetNormals, seaColors, i + 3, oceanNormals[..], oceanColors[..])
    ensures morphFlat' == Flat(morphNormals[..i + 3])
  {
    var oceanColor := biome.getSeaColor(SeaColorQuery(mid, normalizedHeight));
    PaintFace(oceanColors, i, seaColors, oceanColor);

    var oceanNormal := FaceNormalOf(num, oceanA, oceanB, oceanC);
    WriteExtends(oceanNormals[..], targetNormals, i, oceanNormal);
    FillFace(oceanNormals, i, oceanNormal);

    var morphNormal := FaceNormalOf(num, oceanD, oceanE, oceanF);
    assert morphNormals[..i + 3] == morphNormals[..i] + Triple(morphNormal) by {
      assert morphNormals[..i + 3] == morphNormals[..i] + morphNormals[i..i + 3];
    }
    FlatTriple(morphNormals[..i], morphNormal);
    morphFlat' := morphFlat + [morphNormal.x, morphNormal.y, morphNormal.z];
    morphFlat' := morphFlat' + [morphNormal.x, morphNormal.y, morphNormal.z];
    morphFlat' := morphFlat' + [morphNormal.x, morphNormal.y, morphNormal.z];
  }

  /**
   * `if (color) { colors[i * 3] = color.r; ... }`: a face's nine colour
   * slots, zero so far, take the colour when there is one and stay zero
   * otherwise.
   */
  method PaintFace(colors: array<real>, i: nat, ghost target: seq<real>, color: Option<Color>)
    requires 3 * i + 9 <= colors.Length && 3 * i + 9 <= |target|
    requires colors[..] == target[..3 * i] + Zeros(colors.Length - 3 * i)
    requires target[3 * i..3 * i + 9] == Nine(color.GetOr(Black))
    modifies colors
    ensures colors[..] == target[..3 * i + 9] + Zeros(colors.Length - 3 * i - 9)
  {
    ZerosSplit(colors.Length - 3 * i);
    assert target[..3 * i + 9] == target[..3 * i] + target[3 * i..3 * i + 9];
    if color.Some? {
      Splice(target[..3 * i], Zeros(colors.Length - 3 * i), Nine(color.value));
      FillFaceColor(colors, i, color.value);
    }
  }

  /**
   * The state of pass 1 once the first `f` faces (`n` corners) are done: their corners
   * are displaced on both spheres (the rest still at the base positions),
   * their normals and colours written (the remaining colour slots still
   * zero), the cache and the record list cover their corners, the morph
   * target and its normals hold their corners, and the vegetation state is
   * the one their views produce.
   */
  ghost predicate FirstPassDone(ctx: Context, keys: seq<string>, vals: seq<VertexInfo>,
                                records: seq<VertexInfo>,
                                land: seq<Vec>, ocean: seq<Vec>, morph: seq<Vec>, sh: Shading,
                                draws: nat -> real, f: nat, n: nat,
                                positions: seq<Vec>, oceanPositions: seq<Vec>,
                                normals: seq<Vec>, oceanNormals: seq<Vec>,
                                colors: seq<real>, oceanColors: seq<real>,
                                cache: map<string, VertexInfo>, calculated: seq<VertexInfo>,
                                morphFlat: seq<real>, morphNormals: seq<real>,
                                drawn: nat, placed: map<string, seq<Vec>>, log: seq<Placement>)
  {
    && n == 3 * f && f <= |sh.views| && |sh.morphNormals| == |ctx.base|
    && CornersDone(ctx, keys, vals, records, land, ocean, morph, n, positions, oceanPositions, cache, calculated, morphFlat)
    && ShadedUpTo(sh.landNormals, sh.landColors, n, normals, colors)
    && ShadedUpTo(sh.oceanNormals, sh.seaColors, n, oceanNormals, oceanColors)
    && morphNormals == Flat(sh.morphNormals[..n])
    && VegState(drawn, placed, log) ==
       Scatter(ctx.num, VegetationItems(ctx.biome), ctx.faceSize, draws, sh.views[..f])
  }

  /**
   * Everything pass 1 does for face `f` (starting at corner `i`) once its
   * corners are displaced: land and ocean shading, the morph-target normals
   * and the vegetation attempt for the face.
   */
  method ShadeFace(num: Numerics, biome: Biome, items: seq<VegetationItem>, faceSize: real, draws: nat -> real,
                   normals: array<Vec>, oceanNormals: array<Vec>, colors: array<real>, oceanColors: array<real>,
                   i: nat, ghost f: nat, ghost sh: Shading, mid: Vec, normalizedHeight: real,
                   a: Vec, b: Vec, c: Vec, oceanA: Vec, oceanB: Vec, oceanC: Vec,
                   oceanD: Vec, oceanE: Vec, oceanF: Vec,
                   morphNormals: seq<real>, drawn: nat, placed: map<string, seq<Vec>>, log: seq<Placement>)
    returns (morphNormals': seq<real>, drawn': nat, placed': map<string, seq<Vec>>, log': seq<Placement>)
    requires i == 3 * f && normals != oceanNormals && colors != oceanColors
    requires FaceTargets(num, biome, sh, f, mid, normalizedHeight, a, b, c,
                         oceanA, oceanB, oceanC, oceanD, oceanE, oceanF)
    requires ShadedUpTo(sh.landNormals, sh.landColors, i, normals[..], colors[..])
    requires ShadedUpTo(sh.oceanNormals, sh.seaColors, i, oceanNormals[..], oceanColors[..])
    requires morphNormals == Flat(sh.morphNormals[..i])
    requires VegState(drawn, placed, log) == Scatter(num, items, faceSize, draws, sh.views[..f])
    modifies normals, oceanNormals, colors, oceanColors
    ensures ShadedUpTo(sh.landNormals, sh.landColors, i + 3, normals[..], colors[..])
    ensures ShadedUpTo(sh.oceanNormals, sh.seaColors, i + 3, oceanNormals[..], oceanColors[..])
    ensures morphNormals' == Flat(sh.morphNormals[..i + 3])
    ensures VegState(drawn', placed', log') == Scatter(num, items, faceSize, draws, sh.views[..f + 1])
  {
    var steepness := ShadeLand(num, biome, normals, colors, i, sh.landNormals, sh.landColors,
                               mid, normalizedHeight, a, b, c);
    ghost var normals1, colors1 := normals[..], colors[..];
    morphNormals' := ShadeOcean(num, biome, oceanNormals, oceanColors, i,
                                sh.oceanNormals, sh.seaColors, sh.morphNormals, mid, normalizedHeight,
                                oceanA, oceanB, oceanC, oceanD, oceanE, oceanF, morphNormals);
    assert normals[..] == normals1 && colors[..] == colors1;
    ScatterStep(num, items, faceSize, draws, sh.views, f);
    drawn', placed', log' := PlaceVegetation(num, items, faceSize, draws, drawn, placed, log,
                                             normalizedHeight, steepness, a);
  }

  /** One pass of the face loop of pass 1: face `f`, starting at corner `i`. */
  method FirstPassFace(ctx: Context, ghost keys: seq<string>, ghost vals: seq<VertexInfo>,
                       ghost records: seq<VertexInfo>,
                       ghost land: seq<Vec>, ghost ocean: seq<Vec>, ghost morph: seq<Vec>, ghost sh: Shading,
                       draws: nat -> real,
                       positions: array<Vec>, oceanPositions: array<Vec>,
                       normals: array<Vec>, oceanNormals: array<Vec>,
                       colors: array<real>, oceanColors: array<real>, i: nat, ghost f: nat,
                       cache: map<string, VertexInfo>, calculated: seq<VertexInfo>,
                       morphFlat: seq<real>, morphNormals: seq<real>,
                       drawn: nat, placed: map<string, seq<Vec>>, log: seq<Placement>)
    returns (cache': map<string, VertexInfo>, calculated': seq<VertexInfo>,
             morphFlat': seq<real>, morphNormals': seq<real>,
             drawn': nat, placed': map<string, seq<Vec>>, log': seq<Placement>)
    requires Tabled(ctx, keys, vals) && Memoized(keys, vals, records)
    requires Displaced(ctx, records, land, ocean, morph)
    requires i == 3 * f && FaceShaded(ctx, records, land, ocean, morph, sh, f)
    requires positions != oceanPositions && positions != normals && positions != oceanNormals
    requires oceanPositions != normals && oceanPositions != oceanNormals && normals != oceanNormals
    requires colors != oceanColors
    requires FirstPassDone(ctx, keys, vals, records, land, ocean, morph, sh, draws, f, i,
                           positions[..], oceanPositions[..], normals[..], oceanNormals[..],
                           colors[..], oceanColors[..], cache, calculated, morphFlat, morphNormals,
                           drawn, placed, log)
    modifies positions, oceanPositions, normals, oceanNormals, colors, oceanColors
    ensures FirstPassDone(ctx, keys, vals, records, land, ocean, morph, sh, draws, f + 1, i + 3,
                          positions[..], oceanPositions[..], normals[..], oceanNormals[..],
                          colors[..], oceanColors[..], cache', calculated', morphFlat', morphNormals',
                          drawn', placed', log')
  {
    NotYetMoved(land[..i], ctx.base, i, i);
    NotYetMoved(land[..i], ctx.base, i, i + 1);
    NotYetMoved(land[..i], ctx.base, i, i + 2);
    var mid := Mean3(positions[i], positions[i + 1], positions[i + 2]);
    assert mid == Mid(ctx, f);

    var heightSum, a, b, c, oceanA, oceanB, oceanC, oceanD, oceanE, oceanF;
    cache', calculated', morphFlat', heightSum, a, b, c, oceanA, oceanB, oceanC, oceanD, oceanE, oceanF :=
      DisplaceFace(ctx, keys, vals, records, land, ocean, morph, positions, oceanPositions, i,
                   cache, calculated, morphFlat);
    ghost var positions1, oceanPositions1 := positions[..], oceanPositions[..];

    var normalizedHeight := FaceHeightOfSum(heightSum, ctx.min, ctx.max);
    morphNormals', drawn', placed', log' :=
      ShadeFace(ctx.num, ctx.biome, VegetationItems(ctx.biome), ctx.faceSize, draws,
                normals, oceanNormals, colors, oceanColors, i, f, sh, mid, normalizedHeight,
                a, b, c, oceanA, oceanB, oceanC, oceanD, oceanE, oceanF, morphNormals, drawn, placed, log);
    assert positions[..] == positions1 && oceanPositions[..] == oceanPositions1;
  }

  /** Once every face is done, every buffer holds its whole target. */
  lemma {:induction false} AllFacesDone(ctx: Context, keys: seq<string>, vals: seq<VertexInfo>, records: seq<VertexInfo>,
                     land: seq<Vec>, ocean: seq<Vec>, morph: seq<Vec>, sh: Shading, draws: nat -> real,
                     positions: seq<Vec>, oceanPositions: seq<Vec>, normals: seq<Vec>, oceanNormals: seq<Vec>,
                     colors: seq<real>, oceanColors: seq<real>, cache: map<string, VertexInfo>,
                     calculated: seq<VertexInfo>, morphFlat: seq<real>, morphNormals: seq<real>,
                     drawn: nat, placed: map<string, seq<Vec>>, log: seq<Placement>)
    requires 3 * |sh.views| == |ctx.base| == |sh.landNormals| == |sh.oceanNormals|
    requires FirstPassDone(ctx, keys, vals, records, land, ocean, morph, sh, draws, |sh.views|, |ctx.base|,
                           positions, oceanPositions, normals, oceanNormals, colors, oceanColors,
                           cache, calculated, morphFlat, morphNormals, drawn, placed, log)
    ensures positions == land && oceanPositions == ocean && calculated == records
    ensures normals == sh.landNormals && oceanNormals == sh.oceanNormals
    ensures colors == sh.landColors && oceanColors == sh.seaColors
    ensures morphFlat == Flat(morph) && morphNormals == Flat(sh.morphNormals)
    ensures cache == FirstWins(keys, vals, |ctx.base|)
    ensures VegState(drawn, placed, log) == Scatter(ctx.num, VegetationItems(ctx.biome), ctx.faceSize, draws, sh.views)
  {
    var n := |ctx.base|;
    assert land[..n] == land && ocean[..n] == ocean && morph[..n] == morph && records[..n] == records;
    assert ctx.base[n..] == [];
    assert Zeros(0) == [];
    assert sh.landColors[..3 * n] == sh.landColors;
    assert sh.seaColors[..3 * n] == sh.seaColors;
    assert normals == normals[..n];
    assert oceanNormals == oceanNormals[..n];
    assert sh.morphNormals[..n] == sh.morphNormals && sh.views[..|sh.views|] == sh.views;
  }

  /**
   * Pass 1 of `createGeometry`: the face loop over the land and ocean
   * buffers, starting from the base positions on both spheres and zeroed
   * colour buffers, leaves every buffer at its target.
   */
  method FirstPass(ctx: Context, ghost keys: seq<string>, ghost vals: seq<VertexInfo>,
                   ghost records: seq<VertexInfo>,
                   ghost land: seq<Vec>, ghost ocean: seq<Vec>, ghost morph: seq<Vec>, ghost sh: Shading,
                   draws: nat -> real,
                   positions: array<Vec>, oceanPositions: array<Vec>,
                   normals: array<Vec>, oceanNormals: array<Vec>,
                   colors: array<real>, oceanColors: array<real>)
    returns (cache: map<string, VertexInfo>, calculated: seq<VertexInfo>,
             morphFlat: seq<real>, morphNormals: seq<real>,
             drawn: nat, placed: map<string, seq<Vec>>, log: seq<Placement>)
    requires ValidContext(ctx) && Tabled(ctx, keys, vals) && Memoized(keys, vals, records)
    requires Displaced(ctx, records, land, ocean, morph) && Shaded(ctx, records, land, ocean, morph, sh)
    requires positions != oceanPositions && positions != normals && positions != oceanNormals
    requires oceanPositions != normals && oceanPositions != oceanNormals && normals != oceanNormals
    requires colors != oceanColors
    requires positions[..] == ctx.base && oceanPositions[..] == ctx.base
    requires normals.Length == oceanNormals.Length == |ctx.base|
    requires colors[..] == Zeros(3 * |ctx.base|) && oceanColors[..] == Zeros(3 * |ctx.base|)
    modifies positions, oceanPositions, normals, oceanNormals, colors, oceanColors
    ensures positions[..] == land && oceanPositions[..] == ocean && calculated == records
    ensures normals[..] == sh.landNormals && oceanNormals[..] == sh.oceanNormals
    ensures colors[..] == sh.landColors && oceanColors[..] == sh.seaColors
    ensures morphFlat == Flat(morph) && morphNormals == Flat(sh.morphNormals)
    ensures cache == FirstWins(keys, vals, |ctx.base|)
    ensures VegState(drawn, placed, log) == Scatter(ctx.num, VegetationItems(ctx.biome), ctx.faceSize, draws, sh.views)
  {
    cache, calculated, morphFlat, morphNormals := map[], [], [], [];
    drawn, placed, log := 0, map[], [];
    var i := 0;
    ghost var f := 0;
    assert land[..0] + ctx.base[0..] == ctx.base && ocean[..0] + ctx.base[0..] == ctx.base;
    assert sh.landColors[..0] + Zeros(3 * |ctx.base|) == colors[..];
    assert sh.seaColors[..0] + Zeros(3 * |ctx.base|) == oceanColors[..];
    assert FirstWins(keys, vals, 0) == map[];
    while i < positions.Length
      invariant i <= |ctx.base|
      invariant FirstPassDone(ctx, keys, vals, records, land, ocean, morph, sh, draws, f, i,
                              positions[..], oceanPositions[..], normals[..], oceanNormals[..],
                              colors[..], oceanColors[..], cache, calculated, morphFlat, morphNormals,
                              drawn, placed, log)
    {
      cache, calculated, morphFlat, morphNormals, drawn, placed, log :=
        FirstPassFace(ctx, keys, vals, records, land, ocean, morph, sh, draws,
                      positions, oceanPositions, normals, oceanNormals, colors, oceanColors, i, f,
                      cache, calculated, morphFlat, morphNormals, drawn, placed, log);
      i, f := i + 3, f + 1;
    }
    assert i == |ctx.base| && f == |sh.views|;
    AllFacesDone(ctx, keys, vals, records, land, ocean, morph, sh, draws,
                 positions[..], oceanPositions[..], normals[..], oceanNormals[..], colors[..], oceanColors[..],
                 cache, calculated, morphFlat, morphNormals, drawn, placed, log);
  }
}
