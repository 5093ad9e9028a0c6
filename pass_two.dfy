/**
 * Pass 2 of `createGeometry`: a second loop over the land faces in which the
 * biome's vegetation blend (`vegetationHeightAndColorForFace`) moves each
 * land corner to its cached height plus the blend's offset along its
 * direction, and repaints the face with the blend's colour. Nothing else is
 * touched.
 */
module PassTwo {
  import opened Vectors
  import opened Oracles
  import opened VertexCache
  import opened FaceShading
  import opened Surfaces

  /** The colour pass 2 reads for the face starting at corner `i`: the first corner's three slots. */
  function SlotColor(colors: seq<real>, i: nat): Color
    requires 3 * i + 3 <= |colors|
  {
    Color(colors[3 * i], colors[3 * i + 1], colors[3 * i + 2])
  }

  /** A flat-shaded face hands its own colour to the blend. */
  lemma {:induction false} SlotColorOfFlatFace(colors: seq<real>, i: nat, c: Color)
    requires 3 * i + 9 <= |colors| && colors[3 * i..3 * i + 9] == Nine(c)
    ensures SlotColor(colors, i) == c
  {
    assert colors[3 * i] == Nine(c)[0];
    assert colors[3 * i + 1] == Nine(c)[1];
    assert colors[3 * i + 2] == Nine(c)[2];
  }

  /**
   * `vegetationHeightAndColorForFace` on a face whose displaced corners are
   * `a, b, c`: it receives their directions, the face colour, the side
   * length and the vegetation placed in pass 1.
   */
  function Blend(ctx: Context, log: seq<Placement>, a: Vec, b: Vec, c: Vec, color: Color): BlendOutput {
    ctx.biome.vegetationHeightAndColorForFace(
      BlendQuery(ctx.num.normalize(a), ctx.num.normalize(b), ctx.num.normalize(c), color, ctx.faceSideLength, log))
  }

  /** `v.normalize().normalize().multiplyScalar(radius)`: corner `v` moved to `radius` along its direction. */
  function Lift(num: Numerics, v: Vec, radius: real): Vec {
    Scale(num.normalize(num.normalize(v)), radius)
  }

  /**
   * The face starting at corner `i`, whose displaced corners are `a, b, c`
   * with cached records `moveA, moveB, moveC` and whose colour is `color`,
   * is at its target in `positions` and `colors`: each corner at its cached
   * height plus the blend's offset for it, and the blend's colour on all
   * nine colour slots.
   */
  ghost predicate FaceRelief(ctx: Context, log: seq<Placement>, i: nat, a: Vec, b: Vec, c: Vec, color: Color,
                             moveA: VertexInfo, moveB: VertexInfo, moveC: VertexInfo,
                             positions: seq<Vec>, colors: seq<real>)
  {
    && i + 3 <= |positions| && |colors| == 3 * |positions|
    && var out := Blend(ctx, log, a, b, c, color);
       && positions[i..i + 3] == [Lift(ctx.num, a, moveA.height + out.heightA),
                                  Lift(ctx.num, b, moveB.height + out.heightB),
                                  Lift(ctx.num, c, moveC.height + out.heightC)]
       && colors[3 * i..3 * i + 9] == Nine(out.color)
  }

  /** The blend of face `g` of the land buffer `land`, coloured `colors`. */
  function FaceBlend(ctx: Context, log: seq<Placement>, land: seq<Vec>, colors: seq<real>, g: nat): BlendOutput
    requires 3 * g + 3 <= |land| && |colors| == 3 * |land|
  {
    var i := 3 * g;
    Blend(ctx, log, land[i], land[i + 1], land[i + 2], SlotColor(colors, i))
  }

  /** The blends of the first `f` faces, in face order. */
  function Blends(ctx: Context, log: seq<Placement>, land: seq<Vec>, colors: seq<real>, f: nat): (bs: seq<BlendOutput>)
    requires 3 * f <= |land| && |colors| == 3 * |land|
    ensures |bs| == f
    ensures forall g :: 0 <= g < f ==> bs[g] == FaceBlend(ctx, log, land, colors, g)
  {
    seq(f, g requires 0 <= g < f => FaceBlend(ctx, log, land, colors, g))
  }

  /** The colour of each blend. */
  function BlendColors(bs: seq<BlendOutput>): (cs: seq<Color>)
    ensures |cs| == |bs|
    ensures forall g :: 0 <= g < |bs| ==> cs[g] == bs[g].color
  {
    seq(|bs|, g requires 0 <= g < |bs| => bs[g].color)
  }

  /** The face starting at corner `i` moved by `out`: each corner at its cached height plus its offset. */
  function LiftFace(num: Numerics, land: seq<Vec>, records: seq<VertexInfo>, out: BlendOutput, i: nat): seq<Vec>
    requires i + 3 <= |land| == |records|
  {
    [Lift(num, land[i], records[i].height + out.heightA),
     Lift(num, land[i + 1], records[i + 1].height + out.heightB),
     Lift(num, land[i + 2], records[i + 2].height + out.heightC)]
  }

  /** The land positions of the first `|bs|` faces after pass 2, face `g` moved by `bs[g]`. */
  function Relief(num: Numerics, land: seq<Vec>, records: seq<VertexInfo>, bs: seq<BlendOutput>): (s: seq<Vec>)
    requires 3 * |bs| <= |land| == |records|
    ensures |s| == 3 * |bs|
  {
    if bs == [] then []
    else Relief(num, land, records, bs[..|bs| - 1]) + LiftFace(num, land, records, bs[|bs| - 1], 3 * (|bs| - 1))
  }

  /** Face `g`'s three corners in `Relief`. */
  lemma {:induction false} ReliefAt(num: Numerics, land: seq<Vec>, records: seq<VertexInfo>, bs: seq<BlendOutput>, g: nat)
    requires 3 * |bs| <= |land| == |records| && g < |bs|
    ensures Relief(num, land, records, bs)[3 * g..3 * g + 3] == LiftFace(num, land, records, bs[g], 3 * g)
  {
    var n := |bs| - 1;
    if g < n {
      ReliefAt(num, land, records, bs[..n], g);
      assert bs[..n][g] == bs[g];
      assert Relief(num, land, records, bs)[3 * g..3 * g + 3] == Relief(num, land, records, bs[..n])[3 * g..3 * g + 3];
    }
  }

  /** Face `g` of the targets `positions` and `colors`, seen from the pass-1 buffers. */
  ghost predicate FaceRelieved(ctx: Context, log: seq<Placement>, land: seq<Vec>, colors: seq<real>,
                               records: seq<VertexInfo>, positions: seq<Vec>, targetColors: seq<real>, g: nat)
  {
    && 3 * g + 3 <= |land| == |records| && |colors| == 3 * |land|
    && var i := 3 * g;
       FaceRelief(ctx, log, i, land[i], land[i + 1], land[i + 2], SlotColor(colors, i),
                  records[i], records[i + 1], records[i + 2], positions, targetColors)
  }

  /** Every face of the targets is relieved; stated face by face. */
  ghost predicate Relieved(ctx: Context, log: seq<Placement>, land: seq<Vec>, colors: seq<real>,
                           records: seq<VertexInfo>, positions: seq<Vec>, targetColors: seq<real>)
  {
    && |land| == |records| == |positions| && |land| % 3 == 0
    && |colors| == |targetColors| == 3 * |land|
    && forall g {:trigger FaceRelieved(ctx, log, land, colors, records, positions, targetColors, g)} ::
         0 <= g && 3 * g + 3 <= |land| ==> FaceRelieved(ctx, log, land, colors, records, positions, targetColors, g)
  }

  /** The land positions and colours after pass 2. */
  function ReliefOf(ctx: Context, log: seq<Placement>, land: seq<Vec>, colors: seq<real>, records: seq<VertexInfo>): seq<Vec>
    requires |land| == |records| && |colors| == 3 * |land|
  {
    Relief(ctx.num, land, records, Blends(ctx, log, land, colors, |land| / 3))
  }

  function RepaintOf(ctx: Context, log: seq<Placement>, land: seq<Vec>, colors: seq<real>): seq<real>
    requires |colors| == 3 * |land|
  {
    PerSlot(BlendColors(Blends(ctx, log, land, colors, |land| / 3)))
  }

  /** Face `g`'s corners in `ReliefOf`: each at its cached height plus the face blend's offset for it. */
  lemma {:induction false} ReliefOfAt(ctx: Context, log: seq<Placement>, land: seq<Vec>, colors: seq<real>, records: seq<VertexInfo>, g: nat)
    requires |land| == |records| && |land| % 3 == 0 && |colors| == 3 * |land| && 3 * g + 3 <= |land|
    ensures var i := 3 * g;
      var out := Blend(ctx, log, land[i], land[i + 1], land[i + 2], SlotColor(colors, i));
      ReliefOf(ctx, log, land, colors, records)[i..i + 3] ==
        [Lift(ctx.num, land[i], records[i].height + out.heightA),
         Lift(ctx.num, land[i + 1], records[i + 1].height + out.heightB),
         Lift(ctx.num, land[i + 2], records[i + 2].height + out.heightC)]
  {
    var bs := Blends(ctx, log, land, colors, |land| / 3);
    assert bs[g] == FaceBlend(ctx, log, land, colors, g);
    ReliefAt(ctx.num, land, records, bs, g);
  }

  /** The blend's height offset for corner `k` of its face. */
  function Offset(out: BlendOutput, k: nat): real {
    if k == 0 then out.heightA else if k == 1 then out.heightB else out.heightC
  }

  /** Corner `k` of face `g` in `ReliefOf`: at its cached height plus the face blend's offset for it. */
  lemma {:induction false} ReliefOfCorner(ctx: Context, log: seq<Placement>, land: seq<Vec>, colors: seq<real>, records: seq<VertexInfo>,
                       g: nat, k: nat)
    requires |land| == |records| && |land| % 3 == 0 && |colors| == 3 * |land| && 3 * g + 3 <= |land| && k < 3
    ensures ReliefOf(ctx, log, land, colors, records)[3 * g + k] ==
      Lift(ctx.num, land[3 * g + k], records[3 * g + k].height + Offset(FaceBlend(ctx, log, land, colors, g), k))
  {
    ReliefOfAt(ctx, log, land, colors, records, g);
    var relief := ReliefOf(ctx, log, land, colors, records);
    assert relief[3 * g + k] == relief[3 * g..3 * g + 3][k];
  }

  /**
   * Pass 2 keeps a seam closed: two corners that leave pass 1 at the same
   * place with the same record end at the same place whenever their faces'
   * blends offset them alike.
   */
  lemma {:induction false} ReliefSeam(ctx: Context, log: seq<Placement>, land: seq<Vec>, colors: seq<real>, records: seq<VertexInfo>,
                   g: nat, j: nat, h: nat, k: nat)
    requires |land| == |records| && |land| % 3 == 0 && |colors| == 3 * |land|
    requires 3 * g + 3 <= |land| && 3 * h + 3 <= |land| && j < 3 && k < 3
    requires land[3 * g + j] == land[3 * h + k] && records[3 * g + j] == records[3 * h + k]
    requires Offset(FaceBlend(ctx, log, land, colors, g), j) == Offset(FaceBlend(ctx, log, land, colors, h), k)
    ensures ReliefOf(ctx, log, land, colors, records)[3 * g + j] == ReliefOf(ctx, log, land, colors, records)[3 * h + k]
  {
    ReliefOfCorner(ctx, log, land, colors, records, g, j);
    ReliefOfCorner(ctx, log, land, colors, records, h, k);
  }

  /** Face `g`'s nine colour slots in `RepaintOf`: the face blend's colour. */
  lemma {:induction false} RepaintOfAt(ctx: Context, log: seq<Placement>, land: seq<Vec>, colors: seq<real>, g: nat)
    requires |land| % 3 == 0 && |colors| == 3 * |land| && 3 * g + 3 <= |land|
    ensures var i := 3 * g;
      var out := Blend(ctx, log, land[i], land[i + 1], land[i + 2], SlotColor(colors, i));
      RepaintOf(ctx, log, land, colors)[3 * i..3 * i + 9] == Nine(out.color)
    ensures RepaintOf(ctx, log, land, colors)[9 * g..9 * g + 9] == Nine(FaceBlend(ctx, log, land, colors, g).color)
  {
    var bs := Blends(ctx, log, land, colors, |land| / 3);
    assert BlendColors(bs)[g] == FaceBlend(ctx, log, land, colors, g).color;
    PerSlotAt(BlendColors(bs), g);
    assert 3 * (3 * g) == 9 * g;
  }

  /** Face `g` of `ReliefOf` and `RepaintOf`. */
  lemma {:induction false} ReliefTargetAt(ctx: Context, log: seq<Placement>, land: seq<Vec>, colors: seq<real>, records: seq<VertexInfo>, g: nat)
    requires |land| == |records| && |land| % 3 == 0 && |colors| == 3 * |land| && 3 * g + 3 <= |land|
    ensures FaceRelieved(ctx, log, land, colors, records,
                         ReliefOf(ctx, log, land, colors, records), RepaintOf(ctx, log, land, colors), g)
  {
    ReliefOfAt(ctx, log, land, colors, records, g);
    RepaintOfAt(ctx, log, land, colors, g);
  }

  /** `ReliefOf` and `RepaintOf` are the targets of every face. */
  lemma {:induction false} ReliefTargets(ctx: Context, log: seq<Placement>, land: seq<Vec>, colors: seq<real>, records: seq<VertexInfo>)
    requires |land| == |records| && |land| % 3 == 0 && |colors| == 3 * |land|
    ensures Relieved(ctx, log, land, colors, records,
                     ReliefOf(ctx, log, land, colors, records), RepaintOf(ctx, log, land, colors))
  {
    forall g | 0 <= g && 3 * g + 3 <= |land|
      ensures FaceRelieved(ctx, log, land, colors, records,
                           ReliefOf(ctx, log, land, colors, records), RepaintOf(ctx, log, land, colors), g)
    {
      ReliefTargetAt(ctx, log, land, colors, records, g);
    }
  }

  /** The done part `target[..n]` followed by the untouched rest `rest[n..]`. */
  ghost predicate Upto<T>(target: seq<T>, rest: seq<T>, n: nat, s: seq<T>) {
    && |s| == |target| == |rest| && n <= |s|
    && s == target[..n] + rest[n..]
  }

  /** The first `i` corners and their `3i` colour slots are done; the rest are still as pass 1 left them. */
  ghost predicate Progress(targetPositions: seq<Vec>, land: seq<Vec>, targetColors: seq<real>, landColors: seq<real>,
                           i: nat, positions: seq<Vec>, colors: seq<real>)
  {
    Upto(targetPositions, land, i, positions) && Upto(targetColors, landColors, 3 * i, colors)
  }

  /** Nothing is done yet when pass 2 starts from the pass-1 buffers. */
  lemma {:induction false} ProgressStart(targetPositions: seq<Vec>, land: seq<Vec>, targetColors: seq<real>, landColors: seq<real>)
    requires |targetPositions| == |land| && |targetColors| == |landColors|
    ensures Progress(targetPositions, land, targetColors, landColors, 0, land, landColors)
  {
    assert targetPositions[..0] + land[0..] == land;
    assert targetColors[..0] + landColors[0..] == landColors;
  }

  /** Once every corner is done, the buffers are the targets. */
  lemma {:induction false} ProgressDone(targetPositions: seq<Vec>, land: seq<Vec>, targetColors: seq<real>, landColors: seq<real>,
                                        positions: seq<Vec>, colors: seq<real>)
    requires |targetColors| == 3 * |targetPositions|
    requires Progress(targetPositions, land, targetColors, landColors, |positions|, positions, colors)
    ensures positions == targetPositions && colors == targetColors
  {
    assert targetPositions[..|positions|] + land[|positions|..] == targetPositions;
    assert targetColors[..3 * |positions|] + landColors[3 * |positions|..] == targetColors;
  }

  /** `vertices.setXYZ` on the three corners of the face starting at corner `i`. */
  method SetFace(positions: array<Vec>, i: nat, a: Vec, b: Vec, c: Vec)
    requires i + 3 <= positions.Length
    modifies positions
    ensures positions[..] == old(positions[..])[..i] + [a, b, c] + old(positions[..])[i + 3..]
  {
    positions[i] := a;
    positions[i + 1] := b;
    positions[i + 2] := c;
  }

  /** Writing the next face's corners, which are their targets, extends the done part. */
  method WriteCorners(positions: array<Vec>, i: nat, ghost target: seq<Vec>, ghost rest: seq<Vec>, a: Vec, b: Vec, c: Vec)
    requires Upto(target, rest, i, positions[..]) && i + 3 <= |target| && target[i..i + 3] == [a, b, c]
    modifies positions
    ensures Upto(target, rest, i + 3, positions[..])
  {
    assert target[..i + 3] == target[..i] + [a, b, c];
    assert positions[i + 3..] == rest[i + 3..];
    assert positions[..i] == target[..i];
    SetFace(positions, i, a, b, c);
  }

  /** Writing the next face's nine colour slots, which are their targets, extends the done part. */
  method WriteColors(colors: array<real>, i: nat, ghost target: seq<real>, ghost rest: seq<real>, color: Color)
    requires Upto(target, rest, 3 * i, colors[..]) && 3 * i + 9 <= |target| && target[3 * i..3 * i + 9] == Nine(color)
    modifies colors
    ensures Upto(target, rest, 3 * i + 9, colors[..])
  {
    assert target[..3 * i + 9] == target[..3 * i] + Nine(color);
    assert colors[3 * i + 9..] == rest[3 * i + 9..];
    assert colors[..3 * i] == target[..3 * i];
    FillFaceColor(colors, i, color);
  }

  /**
   * One pass of the face loop of pass 2, for the face starting at corner
   * `i`: the blend is asked about the face's directions and first colour,
   * then the corners and the colour slots are rewritten.
   */
  method ReliefFace(ctx: Context, log: seq<Placement>, calculated: seq<VertexInfo>,
                    positions: array<Vec>, colors: array<real>, i: nat, ghost g: nat,
                    ghost land: seq<Vec>, ghost landColors: seq<real>,
                    ghost targetPositions: seq<Vec>, ghost targetColors: seq<real>)
    requires i == 3 * g && FaceRelieved(ctx, log, land, landColors, calculated, targetPositions, targetColors, g)
    requires Progress(targetPositions, land, targetColors, landColors, i, positions[..], colors[..])
    modifies positions, colors
    ensures Progress(targetPositions, land, targetColors, landColors, i + 3, positions[..], colors[..])
  {
    var a := ctx.num.normalize(positions[i]);
    var b := ctx.num.normalize(positions[i + 1]);
    var c := ctx.num.normalize(positions[i + 2]);
    var color := Color(colors[i * 3], colors[i * 3 + 1], colors[i * 3 + 2]);
    assert color == SlotColor(landColors, i);

    var output := ctx.biome.vegetationHeightAndColorForFace(BlendQuery(a, b, c, color, ctx.faceSideLength, log));

    var moveDataA, moveDataB, moveDataC := calculated[i], calculated[i + 1], calculated[i + 2];
    WriteCorners(positions, i, targetPositions, land,
                 Scale(ctx.num.normalize(a), moveDataA.height + output.heightA),
                 Scale(ctx.num.normalize(b), moveDataB.height + output.heightB),
                 Scale(ctx.num.normalize(c), moveDataC.height + output.heightC));
    WriteColors(colors, i, targetColors, landColors, output.color);
    assert 3 * (i + 3) == 3 * i + 9;
  }

  /**
   * Pass 2: the face loop over the land buffers, starting from the pass-1
   * positions `land` and colours `landColors`, leaves both at their targets.
   */
  method SecondPass(ctx: Context, log: seq<Placement>, calculated: seq<VertexInfo>,
                    positions: array<Vec>, colors: array<real>,
                    ghost land: seq<Vec>, ghost landColors: seq<real>,
                    ghost targetPositions: seq<Vec>, ghost targetColors: seq<real>)
    requires Relieved(ctx, log, land, landColors, calculated, targetPositions, targetColors)
    requires positions[..] == land && colors[..] == landColors
    modifies positions, colors
    ensures positions[..] == targetPositions && colors[..] == targetColors
  {
    var i := 0;
    ghost var g := 0;
    ghost var faces := |land| / 3;
    assert |land| == 3 * faces;
    ProgressStart(targetPositions, land, targetColors, landColors);
    while i < positions.Length
      invariant i == 3 * g && g <= faces
      invariant Progress(targetPositions, land, targetColors, landColors, i, positions[..], colors[..])
    {
      assert g < faces;
      assert FaceRelieved(ctx, log, land, landColors, calculated, targetPositions, targetColors, g);
      ReliefFace(ctx, log, calculated, positions, colors, i, g, land, landColors, targetPositions, targetColors);
      i, g := i + 3, g + 1;
    }
    ProgressDone(targetPositions, land, targetColors, landColors, positions[..], colors[..]);
  }
}
