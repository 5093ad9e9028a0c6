/**
 * The collaborators of the geometry worker that the model does not look
 * inside: floating-point vector helpers, the quantised-position key, the
 * scatter noise field and the base icosphere (`Numerics`), and the biome
 * (`Biome`). Each is a record of total functions, so every fact the model
 * proves holds for every possible behaviour of these collaborators.
 */
module Oracles {
  import opened Options
  import opened Vectors

  /** The two points of a `distanceTo` call. */
  datatype Segment = Segment(from: Vec, to: Vec)

  /** The arguments of one noise sample: the scatter amount and the sampled position. */
  datatype NoiseQuery = NoiseQuery(amount: real, at: Vec)

  datatype Numerics = Numerics(
    /** `Vector3.normalize` */
    normalize: Vec -> Vec,
    /** `Vector3.length` */
    length: Vec -> real,
    /** `Vector3.distanceTo` */
    distance: Segment -> real,
    /** `Math.acos` */
    acos: real -> real,
    /** The cache key `${x.toFixed(5)},${y.toFixed(5)},${z.toFixed(5)}` of a position. */
    key: Vec -> string,
    /** `new UberNoise({ min: -amount / 2, max: amount / 2, scale: 100, seed: 0 }).get` */
    noise: NoiseQuery -> real,
    /** The non-indexed position buffer of `new IcosahedronGeometry(1, detail)`. */
    icosahedron: nat -> seq<Vec>)

  /** One entry of `biome.options.vegetation.items`; absent fields are `None`. */
  datatype VegetationItem = VegetationItem(
    name: string,
    density: Option<real>,
    minimumHeight: Option<real>,
    maximumHeight: Option<real>,
    minimumSlope: Option<real>,
    maximumSlope: Option<real>)

  datatype VegetationOptions = VegetationOptions(items: seq<VegetationItem>)

  /** The arguments of one `biome.addVegetation(item, point, normalizedHeight, steepness)` call. */
  datatype Placement = Placement(item: VegetationItem, point: Vec, normalizedHeight: real, steepness: real)

  /** The result of `biome.vegetationHeightAndColorForFace`. */
  datatype BlendOutput = BlendOutput(heightA: real, heightB: real, heightC: real, color: Color)

  /** The arguments of `biome.getColor(mid, normalizedHeight, steepness)`. */
  datatype ColorQuery = ColorQuery(mid: Vec, normalizedHeight: real, steepness: real)

  /** The arguments of `biome.getSeaColor(mid, normalizedHeight)`. */
  datatype SeaColorQuery = SeaColorQuery(mid: Vec, normalizedHeight: real)

  /**
   * The arguments of `biome.vegetationHeightAndColorForFace(a, b, c, color,
   * faceSideLength)`, with the vegetation placed so far.
   */
  datatype BlendQuery = BlendQuery(a: Vec, b: Vec, c: Vec, color: Color, faceSideLength: real,
                                   vegetation: seq<Placement>)

  /**
   * A biome. Its accumulated vegetation state is the list of `addVegetation`
   * calls made so far, which the blend oracle receives explicitly.
   */
  datatype Biome = Biome(
    getHeight: Vec -> real,
    getSeaHeight: Vec -> real,
    getColor: ColorQuery -> Option<Color>,
    getSeaColor: SeaColorQuery -> Option<Color>,
    vegetationHeightAndColorForFace: BlendQuery -> BlendOutput,
    min: real,
    max: real,
    vegetation: Option<VegetationOptions>)

  /** The items the vegetation loop visits: none when `options.vegetation` is absent. */
  function VegetationItems(biome: Biome): (items: seq<VegetationItem>)
    ensures biome.vegetation.None? ==> items == []
  {
    match biome.vegetation
    case Some(v) => v.items
    case None => []
  }

  /** `PlanetOptions`: the subdivision detail, the scatter multiplier and the biome. */
  datatype PlanetOptions = PlanetOptions(detail: Option<nat>, scatter: Option<real>, biome: Biome)

  const DefaultDetail: nat := 50
  const DefaultScatter: real := 1.2
  /** `Math.PI` */
  const Pi: real := 3.141592653589793

  /** Vertex count of a non-indexed icosphere: 20 faces, each split into (detail+1)^2 triangles. */
  function IcosahedronVertexCount(detail: nat): (n: nat)
    ensures n % 3 == 0 && n >= 60
  {
    var k := detail + 1;
    assert k * k >= 1;
    60 * (k * k)
  }

  /**
   * What a generation request needs of its collaborators: the icosphere has
   * its vertex count, and the biome's height extrema are non-zero (the
   * normalised height divides by them).
   */
  predicate ValidRequest(num: Numerics, options: PlanetOptions) {
    var detail := options.detail.GetOr(DefaultDetail);
    && |num.icosahedron(detail)| == IcosahedronVertexCount(detail)
    && options.biome.min != 0.0
    && options.biome.max != 0.0
  }

  /**
   * Everything one `createGeometry` call fixes before its face loops; `min`
   * and `max` are the biome's height extrema.
   */
  datatype Context = Context(
    num: Numerics,
    biome: Biome,
    base: seq<Vec>,
    scatterAmount: real,
    faceSize: real,
    faceSideLength: real,
    min: real,
    max: real)

  predicate ValidContext(ctx: Context) {
    && |ctx.base| >= 3
    && |ctx.base| % 3 == 0
    && ctx.min != 0.0
    && ctx.max != 0.0
  }

  /**
   * The setup of `createGeometry`: the base mesh at `detail ?? 50`, the face
   * count and face area `4 * PI / faceCount`, the side length of the first
   * face, and the scatter amount `(scatter ?? 1.2) * faceSideLength`.
   */
  function ContextOf(num: Numerics, options: PlanetOptions): (ctx: Context)
    requires ValidRequest(num, options)
    ensures ValidContext(ctx)
    ensures ctx.base == num.icosahedron(options.detail.GetOr(DefaultDetail))
    ensures ctx.num == num && ctx.biome == options.biome
    ensures ctx.min == options.biome.min && ctx.max == options.biome.max
    ensures ctx.faceSideLength == num.distance(Segment(ctx.base[0], ctx.base[1]))
    ensures ctx.scatterAmount == options.scatter.GetOr(DefaultScatter) * ctx.faceSideLength
    ensures ctx.faceSize * ((|ctx.base| / 3) as real) == 4.0 * Pi
  {
    var base := num.icosahedron(options.detail.GetOr(DefaultDetail));
    var faceCount := |base| / 3;
    var faceSideLength := num.distance(Segment(base[0], base[1]));
    Context(num, options.biome, base,
            options.scatter.GetOr(DefaultScatter) * faceSideLength,
            (Pi * 4.0) / (faceCount as real),
            faceSideLength,
            options.biome.min,
            options.biome.max)
  }
}
