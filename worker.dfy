/**
 * The geometry worker: `createGeometry` (both passes over a fresh icosphere
 * and ocean sphere) and the message handler that answers a
 * "createGeometry" request with one "geometry" reply. `GeometryOf` is what
 * a request produces; `CreateGeometry` computes it with the buffers and
 * loops of the worker, and the lemmas below state what the produced
 * geometry looks like.
 */
module Worker {
  import opened Options
  import opened Vectors
  import opened Oracles
  import opened VertexCache
  import opened FaceShading
  import opened Surfaces
  import opened Vegetation
  import opened PassOne
  import opened PassTwo

  /**
   * The data of a "geometry" reply: land and ocean positions, colours and
   * normals, the placed vegetation, and the ocean's morph-target positions
   * and normals as flat coordinate lists.
   */
  datatype Geometry = Geometry(
    positions: seq<Vec>,
    colors: seq<real>,
    normals: seq<Vec>,
    oceanPositions: seq<Vec>,
    oceanColors: seq<real>,
    oceanNormals: seq<Vec>,
    vegetation: map<string, seq<Vec>>,
    oceanMorphPositions: seq<real>,
    oceanMorphNormals: seq<real>)

  /**
   * The `addVegetation` calls pass 1 makes for the setup `ctx`, in order;
   * `draws(k)` is the `k`-th value of `Math.random()` the item loop consumes.
   */
  function PlacementsOf(ctx: Context, draws: nat -> real): seq<Placement>
    requires ValidContext(ctx)
  {
    Scatter(ctx.num, VegetationItems(ctx.biome), ctx.faceSize, draws, ShadingOf(ctx, Records(ctx)).views).log
  }

  /** The geometry of the request whose setup is `ctx`. */
  function GeometryFor(ctx: Context, draws: nat -> real): (g: Geometry)
    requires ValidContext(ctx)
    ensures var n := |ctx.base|;
      && |g.positions| == |g.normals| == |g.oceanPositions| == |g.oceanNormals| == n
      && |g.colors| == |g.oceanColors| == |g.oceanMorphPositions| == |g.oceanMorphNormals| == 3 * n
  {
    var records := Records(ctx);
    var n := |ctx.base|;
    var land := LandSurface(ctx, records, n);
    var sh := ShadingOf(ctx, records);
    var veg := Scatter(ctx.num, VegetationItems(ctx.biome), ctx.faceSize, draws, sh.views);
    Geometry(ReliefOf(ctx, veg.log, land, sh.landColors, records),
             RepaintOf(ctx, veg.log, land, sh.landColors),
             sh.landNormals,
             OceanSurface(ctx, records, n),
             sh.seaColors,
             sh.oceanNormals,
             veg.placed,
             Flat(MorphSurface(ctx, records, n)),
             Flat(sh.morphNormals))
  }

  /** What `createGeometry` returns for `options`. */
  function GeometryOf(num: Numerics, options: PlanetOptions, draws: nat -> real): (g: Geometry)
    requires ValidRequest(num, options)
    ensures var n := IcosahedronVertexCount(options.detail.GetOr(DefaultDetail));
      && |g.positions| == |g.normals| == |g.oceanPositions| == |g.oceanNormals| == n
      && |g.colors| == |g.oceanColors| == |g.oceanMorphPositions| == |g.oceanMorphNormals| == 3 * n
  {
    GeometryFor(ContextOf(num, options), draws)
  }

  /** The cache tables, records, displaced surfaces and shading targets pass 1 is proved against. */
  lemma {:induction false} Prepared(ctx: Context)
    requires ValidContext(ctx)
    ensures var records := Records(ctx);
      var n := |ctx.base|;
      var land := LandSurface(ctx, records, n);
      var ocean := OceanSurface(ctx, records, n);
      var morph := MorphSurface(ctx, records, n);
      && Tabled(ctx, Keys(ctx), Computed(ctx))
      && Memoized(Keys(ctx), Computed(ctx), records)
      && Displaced(ctx, records, land, ocean, morph)
      && Shaded(ctx, records, land, ocean, morph, ShadingOf(ctx, records))
  {
    var records := Records(ctx);
    var n := |ctx.base|;
    KeysAreTabled(ctx);
    RecordsAreMemoized(ctx);
    SurfacesAreDisplaced(ctx, records);
    ShadingTargets(ctx, records, LandSurface(ctx, records, n), OceanSurface(ctx, records, n),
                   MorphSurface(ctx, records, n));
  }

  /** A fresh buffer holding `s`. */
  method BufferOf<T>(s: seq<T>) returns (a: array<T>)
    ensures fresh(a) && a[..] == s
  {
    a := new T[|s|](k requires 0 <= k < |s| => s[k]);
  }

  /** `new Float32Array(n)`: `n` zero slots. */
  method ZeroBuffer(n: nat) returns (a: array<real>)
    ensures fresh(a) && a[..] == Zeros(n)
  {
    a := new real[n](_ => 0.0);
  }

  /**
   * `createGeometry(planetOptions)`: the land and ocean spheres start at the
   * base icosphere, pass 1 displaces, shades and scatters vegetation face by
   * face, and pass 2 blends the vegetation into the land heights and colours.
   */
  method CreateGeometry(num: Numerics, options: PlanetOptions, draws: nat -> real) returns (g: Geometry)
    requires ValidRequest(num, options)
    ensures g == GeometryOf(num, options, draws)
  {
    var ctx := ContextOf(num, options);
    g := Generate(ctx, draws);
  }

  /**
   * Pass 1 for the setup `ctx` over fresh buffers. The base icosphere's own
   * normals are all overwritten, so they start as the base positions here.
   */
  method FirstPassBuffers(ctx: Context, draws: nat -> real)
    returns (positions: array<Vec>, colors: array<real>, normals: array<Vec>,
             oceanPositions: seq<Vec>, oceanColors: seq<real>, oceanNormals: seq<Vec>,
             calculated: seq<VertexInfo>, morphPositions: seq<real>, morphNormals: seq<real>,
             placed: map<string, seq<Vec>>, log: seq<Placement>)
    requires ValidContext(ctx)
    ensures fresh(positions) && fresh(colors) && fresh(normals) && positions != normals
    ensures var records := Records(ctx);
      var n := |ctx.base|;
      var sh := ShadingOf(ctx, records);
      && positions[..] == LandSurface(ctx, records, n) && calculated == records
      && colors[..] == sh.landColors && normals[..] == sh.landNormals
      && oceanPositions == OceanSurface(ctx, records, n)
      && oceanColors == sh.seaColors && oceanNormals == sh.oceanNormals
      && morphPositions == Flat(MorphSurface(ctx, records, n)) && morphNormals == Flat(sh.morphNormals)
      && var veg := Scatter(ctx.num, VegetationItems(ctx.biome), ctx.faceSize, draws, sh.views);
         placed == veg.placed && log == veg.log
  {
    ghost var records := Records(ctx);
    ghost var keys, vals := Keys(ctx), Computed(ctx);
    ghost var n := |ctx.base|;
    ghost var land := LandSurface(ctx, records, n);
    ghost var ocean := OceanSurface(ctx, records, n);
    ghost var morph := MorphSurface(ctx, records, n);
    ghost var sh := ShadingOf(ctx, records);
    Prepared(ctx);

    positions := BufferOf(ctx.base);
    var oceanBuffer := BufferOf(ctx.base);
    normals := BufferOf(ctx.base);
    var oceanNormalBuffer := BufferOf(ctx.base);
    colors := ZeroBuffer(3 * |ctx.base|);
    var oceanColorBuffer := ZeroBuffer(3 * |ctx.base|);

    var cache, drawn;
    cache, calculated, morphPositions, morphNormals, drawn, placed, log :=
      FirstPass(ctx, keys, vals, records, land, ocean, morph, sh, draws,
                positions, oceanBuffer, normals, oceanNormalBuffer, colors, oceanColorBuffer);
    oceanPositions, oceanColors, oceanNormals := oceanBuffer[..], oceanColorBuffer[..], oceanNormalBuffer[..];
  }

  /** Both passes for the setup `ctx`. */
  method Generate(ctx: Context, draws: nat -> real) returns (g: Geometry)
    requires ValidContext(ctx)
    ensures g == GeometryFor(ctx, draws)
  {
    var positions, colors, normals, oceanPositions, oceanColors, oceanNormals,
        calculated, morphPositions, morphNormals, placed, log := FirstPassBuffers(ctx, draws);
    ghost var land := positions[..];
    ghost var landColors := colors[..];
    ghost var relief := ReliefOf(ctx, log, land, landColors, calculated);
    ghost var repaint := RepaintOf(ctx, log, land, landColors);
    ReliefTargets(ctx, log, land, landColors, calculated);
    SecondPass(ctx, log, calculated, positions, colors, land, landColors, relief, repaint);
    g := Geometry(positions[..], colors[..], normals[..], oceanPositions, oceanColors, oceanNormals,
                  placed, morphPositions, morphNormals);
  }

  /** The blend pass 2 computes for face `g`. */
  function FaceOutput(ctx: Context, draws: nat -> real, g: nat): BlendOutput
    requires ValidContext(ctx) && 3 * g + 3 <= |ctx.base|
  {
    var records := Records(ctx);
    FaceBlend(ctx, PlacementsOf(ctx, draws), LandSurface(ctx, records, |ctx.base|),
              ShadingOf(ctx, records).landColors, g)
  }

  /** Slot `9g .. 9g + 8` of the pass-1 land colours read back as one colour: face `g`'s colour, or black. */
  lemma {:induction false} LandSlotColor(ctx: Context, g: nat)
    requires ValidContext(ctx) && 3 * g + 3 <= |ctx.base|
    ensures SlotColor(ShadingOf(ctx, Records(ctx)).landColors, 3 * g) ==
            LandColor(ctx, Records(ctx), g).GetOr(Black)
  {
    var records := Records(ctx);
    var cs := LandFaceColors(ctx, records, |ctx.base| / 3);
    LandFaceColorsAt(ctx, records, |ctx.base| / 3, g);
    PerSlotAt(cs, g);
    assert 3 * (3 * g) == 9 * g;
    SlotColorOfFlatFace(PerSlot(cs), 3 * g, cs[g]);
  }

  /** The land fields of the geometry for `ctx`: pass 2's relief and repaint of pass 1's land surface. */
  lemma {:induction false} GeometryLand(ctx: Context, draws: nat -> real)
    requires ValidContext(ctx)
    ensures var records := Records(ctx);
      var sh := ShadingOf(ctx, records);
      var land := LandSurface(ctx, records, |ctx.base|);
      var log := PlacementsOf(ctx, draws);
      var geo := GeometryFor(ctx, draws);
      && geo.positions == ReliefOf(ctx, log, land, sh.landColors, records)
      && geo.colors == RepaintOf(ctx, log, land, sh.landColors)
  {
  }

  /** The flat-shaded fields of the geometry for `ctx` and its ocean surface, as pass 1 leaves them. */
  lemma {:induction false} GeometryShading(ctx: Context, draws: nat -> real)
    requires ValidContext(ctx)
    ensures var records := Records(ctx);
      var sh := ShadingOf(ctx, records);
      var geo := GeometryFor(ctx, draws);
      && geo.normals == sh.landNormals && geo.oceanNormals == sh.oceanNormals
      && geo.oceanPositions == OceanSurface(ctx, records, |ctx.base|) && geo.oceanColors == sh.seaColors
  {
  }

  /** The morph-target attributes of the geometry for `ctx`, flattened. */
  lemma {:induction false} GeometryMorph(ctx: Context, draws: nat -> real)
    requires ValidContext(ctx)
    ensures var records := Records(ctx);
      var geo := GeometryFor(ctx, draws);
      && geo.oceanMorphPositions == Flat(MorphSurface(ctx, records, |ctx.base|))
      && geo.oceanMorphNormals == Flat(PerCorner(MorphFaceNormals(ctx, records, |ctx.base| / 3)))
  {
  }

  /**
   * The blend of face `g` sees the face's displaced pass-1 corners, its
   * pass-1 land colour (black when the biome gave none) and every
   * vegetation placement of pass 1.
   */
  lemma {:induction false} FaceOutputInputs(ctx: Context, draws: nat -> real, g: nat)
    requires ValidContext(ctx) && 3 * g + 3 <= |ctx.base|
    ensures var records := Records(ctx);
      FaceOutput(ctx, draws, g) ==
        ctx.biome.vegetationHeightAndColorForFace(BlendQuery(
          ctx.num.normalize(LandPos(ctx, records, 3 * g)),
          ctx.num.normalize(LandPos(ctx, records, 3 * g + 1)),
          ctx.num.normalize(LandPos(ctx, records, 3 * g + 2)),
          LandColor(ctx, records, g).GetOr(Black), ctx.faceSideLength, PlacementsOf(ctx, draws)))
  {
    var records := Records(ctx);
    var n := |ctx.base|;
    var land := LandSurface(ctx, records, n);
    var colors := ShadingOf(ctx, records).landColors;
    SurfacesAt(ctx, records, n, 3 * g);
    SurfacesAt(ctx, records, n, 3 * g + 1);
    SurfacesAt(ctx, records, n, 3 * g + 2);
    LandSlotColor(ctx, g);
    assert FaceOutput(ctx, draws, g) ==
      Blend(ctx, PlacementsOf(ctx, draws), land[3 * g], land[3 * g + 1], land[3 * g + 2], SlotColor(colors, 3 * g));
  }

  /**
   * Pass 2 on corner `k` of face `g`: it ends on the ray through its pass-1
   * land position, at its cached height plus its face blend's offset for it.
   */
  lemma {:induction false} LandCornerAfterBlend(ctx: Context, draws: nat -> real, g: nat, k: nat)
    requires ValidContext(ctx) && 3 * g + 3 <= |ctx.base| && k < 3
    ensures var records := Records(ctx);
      var p := 3 * g + k;
      GeometryFor(ctx, draws).positions[p] ==
        Lift(ctx.num, LandSurface(ctx, records, |ctx.base|)[p], records[p].height + Offset(FaceOutput(ctx, draws, g), k))
  {
    var records := Records(ctx);
    var log := PlacementsOf(ctx, draws);
    var land := LandSurface(ctx, records, |ctx.base|);
    var colors := ShadingOf(ctx, records).landColors;
    GeometryLand(ctx, draws);
    ReliefOfCorner(ctx, log, land, colors, records, g, k);
  }

  /**
   * Flat shading of face `g`: one land normal and one ocean normal (those of
   * the displaced pass-1 corners) on its three corners, its sea colour (black
   * when the biome gives none) and its blend's colour on its nine colour slots.
   */
  lemma {:induction false} FlatFaces(ctx: Context, draws: nat -> real, g: nat)
    requires ValidContext(ctx) && 3 * g + 3 <= |ctx.base|
    ensures var records := Records(ctx);
      var geo := GeometryFor(ctx, draws);
      && geo.normals[3 * g..3 * g + 3] == Triple(LandNormal(ctx, records, g))
      && geo.oceanNormals[3 * g..3 * g + 3] == Triple(OceanNormal(ctx, records, g))
      && geo.oceanColors[9 * g..9 * g + 9] == Nine(SeaColor(ctx, records, g).GetOr(Black))
      && geo.colors[9 * g..9 * g + 9] == Nine(FaceOutput(ctx, draws, g).color)
  {
    var records := Records(ctx);
    var n := |ctx.base|;
    var faces := n / 3;
    var land := LandSurface(ctx, records, n);
    var sh := ShadingOf(ctx, records);
    var log := PlacementsOf(ctx, draws);
    GeometryLand(ctx, draws);
    GeometryShading(ctx, draws);
    LandFaceNormalsAt(ctx, records, faces, g);
    PerCornerAt(LandFaceNormals(ctx, records, faces), g);
    OceanFaceNormalsAt(ctx, records, faces, g);
    PerCornerAt(OceanFaceNormals(ctx, records, faces), g);
    SeaFaceColorsAt(ctx, records, faces, g);
    PerSlotAt(SeaFaceColors(ctx, records, faces), g);
    RepaintOfAt(ctx, log, land, sh.landColors, g);
  }

  /** The ocean morph-target positions: coordinate `k` of corner `p` is that of its morph-target position. */
  lemma {:induction false} MorphPositionsAt(ctx: Context, draws: nat -> real, p: nat, k: nat)
    requires ValidContext(ctx) && p < |ctx.base| && k < 3
    ensures GeometryFor(ctx, draws).oceanMorphPositions[3 * p + k] == Coord(MorphPos(ctx, Records(ctx), p), k)
  {
    var records := Records(ctx);
    var n := |ctx.base|;
    GeometryMorph(ctx, draws);
    FlatAt(MorphSurface(ctx, records, n), p, k);
    SurfacesAt(ctx, records, n, p);
  }

  /**
   * The ocean morph-target normals: coordinate `k` of corner `j` of face `g`
   * is that of the face's morph-target normal.
   */
  lemma {:induction false} MorphNormalsAt(ctx: Context, draws: nat -> real, g: nat, j: nat, k: nat)
    requires ValidContext(ctx) && 3 * g + 3 <= |ctx.base| && j < 3 && k < 3
    ensures GeometryFor(ctx, draws).oceanMorphNormals[3 * (3 * g + j) + k] == Coord(MorphNormal(ctx, Records(ctx), g), k)
  {
    var records := Records(ctx);
    var faces := |ctx.base| / 3;
    GeometryMorph(ctx, draws);
    MorphFaceNormalsAt(ctx, records, faces, g);
    FlatPerCornerAt(MorphFaceNormals(ctx, records, faces), g, j, k);
  }

  /**
   * The seam guarantee on the ocean: corners at the same base position (so
   * with the same cache key and the same record) get the same ocean position
   * and the same morph-target position.
   */
  lemma {:induction false} OceanSeams(ctx: Context, draws: nat -> real, p: nat, q: nat)
    requires ValidContext(ctx) && p < |ctx.base| && q < |ctx.base| && ctx.base[p] == ctx.base[q]
    ensures var geo := GeometryFor(ctx, draws);
      && geo.oceanPositions[p] == geo.oceanPositions[q]
      && geo.oceanMorphPositions[3 * p] == geo.oceanMorphPositions[3 * q]
      && geo.oceanMorphPositions[3 * p + 1] == geo.oceanMorphPositions[3 * q + 1]
      && geo.oceanMorphPositions[3 * p + 2] == geo.oceanMorphPositions[3 * q + 2]
  {
    var records := Records(ctx);
    var n := |ctx.base|;
    GeometryShading(ctx, draws);
    CoincidentCornersStayTogether(ctx, p, q);
    SurfacesAt(ctx, records, n, p);
    SurfacesAt(ctx, records, n, q);
    MorphPositionsAt(ctx, draws, p, 0);
    MorphPositionsAt(ctx, draws, p, 1);
    MorphPositionsAt(ctx, draws, p, 2);
    MorphPositionsAt(ctx, draws, q, 0);
    MorphPositionsAt(ctx, draws, q, 1);
    MorphPositionsAt(ctx, draws, q, 2);
  }

  /**
   * The vegetation of the returned geometry: at most one placement per face,
   * each of a configured item whose height and slope windows its face
   * passed; one point per placement under the item's name; and nothing at
   * all when the biome configures no vegetation.
   */
  lemma {:induction false} VegetationOfGeometry(ctx: Context, draws: nat -> real)
    requires ValidContext(ctx)
    ensures var log := PlacementsOf(ctx, draws);
      var geo := GeometryFor(ctx, draws);
      && 3 * |log| <= |ctx.base|
      && (forall e :: e in log ==>
            && e.item in VegetationItems(ctx.biome)
            && HeightAccepts(e.item, e.normalizedHeight)
            && SlopeAccepts(e.item, e.steepness))
      && (forall name :: |Points(geo.vegetation, name)| == CountNamed(log, name))
      && (ctx.biome.vegetation.None? ==> log == [] && geo.vegetation == map[])
  {
    var num := ctx.num;
    var items := VegetationItems(ctx.biome);
    var views := ShadingOf(ctx, Records(ctx)).views;
    PlacementsRespectWindows(num, items, ctx.faceSize, draws, views);
    PlacementCountBounded(num, items, ctx.faceSize, draws, views);
    forall name: string
      ensures |Points(Scatter(num, items, ctx.faceSize, draws, views).placed, name)| ==
              CountNamed(Scatter(num, items, ctx.faceSize, draws, views).log, name)
    {
      PointsMatchPlacements(num, items, ctx.faceSize, draws, views, name);
    }
    if ctx.biome.vegetation.None? {
      NoItemsNoPlacements(num, ctx.faceSize, draws, views);
    }
  }

  /** An incoming message: its `type`, its planet options and the id the reply echoes. */
  datatype Request = Request(kind: string, data: PlanetOptions, requestId: int)

  /** An outgoing `postMessage`. */
  datatype Reply = Reply(kind: string, data: Geometry, requestId: int)

  /** A `console.error` line. */
  datatype ErrorLine = UnknownMessageType(kind: string)

  /**
   * `onmessage`: a "createGeometry" request is answered by exactly one
   * "geometry" reply carrying the request's geometry and id; any other type
   * is answered by nothing and logs one error naming it.
   */
  method OnMessage(num: Numerics, draws: nat -> real, e: Request)
    returns (replies: seq<Reply>, errors: seq<ErrorLine>)
    requires e.kind == "createGeometry" ==> ValidRequest(num, e.data)
    ensures e.kind == "createGeometry" ==>
      && replies == [Reply("geometry", GeometryOf(num, e.data, draws), e.requestId)]
      && errors == []
    ensures e.kind != "createGeometry" ==> replies == [] && errors == [UnknownMessageType(e.kind)]
  {
    if e.kind == "createGeometry" {
      var geometry := CreateGeometry(num, e.data, draws);
      replies, errors := [Reply("geometry", geometry, e.requestId)], [];
    } else {
      replies, errors := [], [UnknownMessageType(e.kind)];
    }
  }
}
