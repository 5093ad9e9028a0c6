/**
 * Vegetation scatter in pass 1 of `createGeometry`. For each face the
 * configured items are tried in list order; each try consumes one random
 * draw, and the first item whose draw and height/slope windows all pass is
 * placed (one point appended to its name's list, one `addVegetation` call
 * recorded), after which no further item is tried for that face.
 */
module Vegetation {
  import opened Options
  import opened Vectors
  import opened Oracles
  import opened VertexCache
  import opened FaceShading
  import Models

  /** Clearance added to the terrain radius of a placed point. */
  const Clearance: real := 0.005

  /** `Math.random() < faceSize * (vegetation.density ?? 1)` */
  predicate DrawAccepts(item: VegetationItem, draw: real, faceSize: real) {
    draw < faceSize * item.density.GetOr(1.0)
  }

  /** The height window; an absent minimum rejects faces below sea level. */
  predicate HeightAccepts(item: VegetationItem, h: real) {
    && (match item.minimumHeight
        case Some(lo) => !(h < lo)
        case None => !(h < 0.0))
    && (match item.maximumHeight
        case Some(hi) => !(h > hi)
        case None => true)
  }

  /** The slope window; absent bounds impose nothing. */
  predicate SlopeAccepts(item: VegetationItem, s: real) {
    && (match item.minimumSlope
        case Some(lo) => !(s < lo)
        case None => true)
    && (match item.maximumSlope
        case Some(hi) => !(s > hi)
        case None => true)
  }

  predicate Accepts(item: VegetationItem, draw: real, faceSize: real, h: real, s: real) {
    DrawAccepts(item, draw, faceSize) && HeightAccepts(item, h) && SlopeAccepts(item, s)
  }

  /**
   * The first item at index `j` or later that accepts, where item `k` is
   * judged on draw number `cursor + k`.
   */
  function FirstAcceptedFrom(items: seq<VegetationItem>, draws: nat -> real, cursor: nat,
                             faceSize: real, h: real, s: real, j: nat): (r: Option<nat>)
    requires j <= |items|
    ensures r.Some? ==>
      && j <= r.value < |items|
      && Accepts(items[r.value], draws(cursor + r.value), faceSize, h, s)
      && forall k :: j <= k < r.value ==> !Accepts(items[k], draws(cursor + k), faceSize, h, s)
    ensures r.None? ==>
      forall k :: j <= k < |items| ==> !Accepts(items[k], draws(cursor + k), faceSize, h, s)
    decreases |items| - j
  {
    if j == |items| then None
    else if Accepts(items[j], draws(cursor + j), faceSize, h, s) then Some(j)
    else FirstAcceptedFrom(items, draws, cursor, faceSize, h, s, j + 1)
  }

  function FirstAccepted(items: seq<VegetationItem>, draws: nat -> real, cursor: nat,
                         faceSize: real, h: real, s: real): Option<nat>
  {
    FirstAcceptedFrom(items, draws, cursor, faceSize, h, s, 0)
  }

  /** Random draws one face consumes: one per item tried. */
  function DrawsUsed(chosen: Option<nat>, itemCount: nat): nat {
    if chosen.Some? then chosen.value + 1 else itemCount
  }

  /** The list of points placed under `name` so far (none when absent). */
  function Points(placed: map<string, seq<Vec>>, name: string): seq<Vec> {
    if name in placed then placed[name] else []
  }

  /**
   * The intended effect of creating the list of `name` when it is missing
   * and pushing `point` onto it: one more point for `name`, every other
   * name's list untouched.
   */
  function AppendPoint(placed: map<string, seq<Vec>>, name: string, point: Vec): (r: map<string, seq<Vec>>)
    ensures name in r && r[name] == Points(placed, name) + [point]
    ensures forall n :: n != name ==> (n in r <==> n in placed) && Points(r, n) == Points(placed, n)
  {
    placed[name := Points(placed, name) + [point]]
  }

  /** The outcome of the push as written: the new lists, or a `TypeError` thrown out of `onmessage`. */
  datatype PushOutcome = Pushed(placed: map<string, seq<Vec>>) | PushThrows

  /**
   * The push as written on the object literal `placedVegetation`: a name it
   * does not hold but that `Object.prototype` provides reads as a truthy
   * member, so no list is created, and that member has no `push`.
   */
  function AppendPointAsWritten(placed: map<string, seq<Vec>>, name: string, point: Vec): (r: PushOutcome)
    ensures r.PushThrows? <==> name !in placed && name in Models.ObjectPrototypeMembers
    ensures r.Pushed? ==> r.placed == AppendPoint(placed, name, point)
  {
    if name !in placed && name in Models.ObjectPrototypeMembers then PushThrows
    else Pushed(AppendPoint(placed, name, point))
  }

  /**
   * The first placement of an item named "constructor" throws as written,
   * where `AppendPoint` starts the item's list with the point.
   */
  lemma {:induction false} ConstructorItemThrows(point: Vec)
    ensures AppendPointAsWritten(map[], "constructor", point) == PushThrows
    ensures AppendPoint(map[], "constructor", point) == map["constructor" := [point]]
  {
    assert Points(map[], "constructor") + [point] == [point];
  }

  /** The vegetation state threaded through the face loop: draws taken, points per name, `addVegetation` calls. */
  datatype VegState = VegState(drawn: nat, placed: map<string, seq<Vec>>, log: seq<Placement>)

  const Empty: VegState := VegState(0, map[], [])

  /** What the item loop of one face looks at: its normalised height and steepness, and its first land corner. */
  datatype FaceView = FaceView(normalizedHeight: real, steepness: real, corner: Vec)

  function ViewOf(ctx: Context, records: seq<VertexInfo>, f: nat): FaceView
    requires ValidContext(ctx) && IsFace(ctx, records, f)
  {
    FaceView(FaceHeight(ctx, records, f), Steepness(ctx, records, f), LandPos(ctx, records, 3 * f))
  }

  /**
   * The vegetation work of one face seen as `v`, starting from state `s`:
   * the chosen item (if any) gets the point just above the face's first
   * land corner and an `addVegetation` call is recorded.
   */
  function Step(num: Numerics, items: seq<VegetationItem>, faceSize: real, draws: nat -> real,
                s: VegState, v: FaceView): VegState
  {
    var chosen := FirstAccepted(items, draws, s.drawn, faceSize, v.normalizedHeight, v.steepness);
    var drawn := s.drawn + DrawsUsed(chosen, |items|);
    match chosen
    case None => VegState(drawn, s.placed, s.log)
    case Some(j) =>
      var item := items[j];
      var dir := num.normalize(v.corner);
      VegState(drawn,
               AppendPoint(s.placed, item.name, Scale(dir, num.length(v.corner) + Clearance)),
               s.log + [Placement(item, dir, v.normalizedHeight, v.steepness)])
  }

  /** The vegetation state after the faces seen as `views`, in order. */
  function Scatter(num: Numerics, items: seq<VegetationItem>, faceSize: real, draws: nat -> real,
                   views: seq<FaceView>): VegState
  {
    if views == [] then Empty
    else Step(num, items, faceSize, draws, Scatter(num, items, faceSize, draws, views[..|views| - 1]),
              views[|views| - 1])
  }

  /** The views of the first `f` faces. */
  function Views(ctx: Context, records: seq<VertexInfo>, f: nat): (vs: seq<FaceView>)
    requires ValidContext(ctx) && Fits(ctx, records) && 3 * f <= |ctx.base|
    ensures |vs| == f
  {
    if f == 0 then [] else Views(ctx, records, f - 1) + [ViewOf(ctx, records, f - 1)]
  }

  /** Each face takes one draw per item tried: at least one when there are items, at most one per item. */
  lemma {:induction false} StepDraws(num: Numerics, items: seq<VegetationItem>, faceSize: real,
                  draws: nat -> real, s: VegState, v: FaceView)
    ensures var r := Step(num, items, faceSize, draws, s, v);
      && s.drawn <= r.drawn <= s.drawn + |items|
      && (items != [] ==> s.drawn < r.drawn)
  {
  }

  /**
   * One face records at most one `addVegetation` call, for a configured
   * item whose height and slope windows the face passes.
   */
  lemma {:induction false} StepLog(num: Numerics, items: seq<VegetationItem>, faceSize: real,
                draws: nat -> real, s: VegState, v: FaceView)
    ensures var r := Step(num, items, faceSize, draws, s, v);
      || r.log == s.log
      || (&& |r.log| == |s.log| + 1
          && r.log[..|s.log|] == s.log
          && r.log[|s.log|].item in items
          && r.log[|s.log|].normalizedHeight == v.normalizedHeight
          && r.log[|s.log|].steepness == v.steepness
          && HeightAccepts(r.log[|s.log|].item, v.normalizedHeight)
          && SlopeAccepts(r.log[|s.log|].item, v.steepness))
  {
    var r := Step(num, items, faceSize, draws, s, v);
    if r.log != s.log {
      assert r.log[..|s.log|] == s.log;
    }
  }

  /**
   * One face appends one point to the list of the item it records and
   * leaves every other list alone; when it records nothing no list changes.
   */
  lemma {:induction false} StepPoints(num: Numerics, items: seq<VegetationItem>, faceSize: real,
                   draws: nat -> real, s: VegState, v: FaceView, name: string)
    ensures var r := Step(num, items, faceSize, draws, s, v);
      |Points(r.placed, name)| ==
        |Points(s.placed, name)| + (if |r.log| > |s.log| && r.log[|s.log|].item.name == name then 1 else 0)
  {
  }

  /** Entry `g` of the views is face `g` as the item loop sees it. */
  lemma {:induction false} ViewsAt(ctx: Context, records: seq<VertexInfo>, f: nat, g: nat)
    requires ValidContext(ctx) && Fits(ctx, records) && 3 * f <= |ctx.base| && g < f
    ensures Views(ctx, records, f)[g] == ViewOf(ctx, records, g)
  {
    if g < f - 1 {
      ViewsAt(ctx, records, f - 1, g);
    }
  }

  /** Scattering over one more face is one more step. */
  lemma {:induction false} ScatterStep(num: Numerics, items: seq<VegetationItem>, faceSize: real, draws: nat -> real,
                    views: seq<FaceView>, f: nat)
    requires f < |views|
    ensures Scatter(num, items, faceSize, draws, views[..f + 1]) ==
      Step(num, items, faceSize, draws, Scatter(num, items, faceSize, draws, views[..f]), views[f])
  {
    assert views[..f + 1][..f] == views[..f];
  }

  /** Every recorded placement is of a configured item whose height and slope windows its face passed. */
  lemma {:induction false} PlacementsRespectWindows(num: Numerics, items: seq<VegetationItem>, faceSize: real,
                                                    draws: nat -> real, views: seq<FaceView>)
    ensures forall e :: e in Scatter(num, items, faceSize, draws, views).log ==>
      && e.item in items
      && HeightAccepts(e.item, e.normalizedHeight)
      && SlopeAccepts(e.item, e.steepness)
  {
    if views != [] {
      var s := Scatter(num, items, faceSize, draws, views[..|views| - 1]);
      PlacementsRespectWindows(num, items, faceSize, draws, views[..|views| - 1]);
      StepLog(num, items, faceSize, draws, s, views[|views| - 1]);
    }
  }

  /** At most one placement per face, and at most one draw per item per face. */
  lemma {:induction false} PlacementCountBounded(num: Numerics, items: seq<VegetationItem>, faceSize: real,
                                                 draws: nat -> real, views: seq<FaceView>)
    ensures |Scatter(num, items, faceSize, draws, views).log| <= |views|
    ensures Scatter(num, items, faceSize, draws, views).drawn <= |views| * |items|
  {
    if views != [] {
      var s := Scatter(num, items, faceSize, draws, views[..|views| - 1]);
      PlacementCountBounded(num, items, faceSize, draws, views[..|views| - 1]);
      StepLog(num, items, faceSize, draws, s, views[|views| - 1]);
      StepDraws(num, items, faceSize, draws, s, views[|views| - 1]);
      assert (|views| - 1) * |items| + |items| == |views| * |items|;
    }
  }

  /** The number of recorded placements of items called `name`. */
  function CountNamed(log: seq<Placement>, name: string): nat {
    if log == [] then 0
    else CountNamed(log[..|log| - 1], name) + (if log[|log| - 1].item.name == name then 1 else 0)
  }

  /** Each name's list holds exactly one point per recorded placement of that name. */
  lemma {:induction false} PointsMatchPlacements(num: Numerics, items: seq<VegetationItem>, faceSize: real,
                                                 draws: nat -> real, views: seq<FaceView>, name: string)
    ensures var st := Scatter(num, items, faceSize, draws, views);
      |Points(st.placed, name)| == CountNamed(st.log, name)
  {
    if views != [] {
      var s := Scatter(num, items, faceSize, draws, views[..|views| - 1]);
      var r := Scatter(num, items, faceSize, draws, views);
      PointsMatchPlacements(num, items, faceSize, draws, views[..|views| - 1], name);
      StepLog(num, items, faceSize, draws, s, views[|views| - 1]);
      StepPoints(num, items, faceSize, draws, s, views[|views| - 1], name);
      if r.log != s.log {
        assert r.log[..|r.log| - 1] == s.log;
      }
    }
  }

  /** Without configured items no draw is taken and nothing is placed. */
  lemma {:induction false} NoItemsNoPlacements(num: Numerics, faceSize: real, draws: nat -> real,
                                               views: seq<FaceView>)
    ensures Scatter(num, [], faceSize, draws, views) == Empty
  {
    if views != [] {
      NoItemsNoPlacements(num, faceSize, draws, views[..|views| - 1]);
    }
  }

  /**
   * A single item with density 1, minimum height 0 and no other bound,
   * every draw 0 and a positive face area: the face places that item
   * exactly when its normalised height is not below sea level.
   */
  lemma {:induction false} SingleItemAlwaysDrawingZero(num: Numerics, item: VegetationItem, faceSize: real,
                                    draws: nat -> real, s: VegState, v: FaceView)
    requires faceSize > 0.0
    requires forall k :: draws(k) == 0.0
    requires item.density == Some(1.0) && item.minimumHeight == Some(0.0)
    requires item.maximumHeight.None? && item.minimumSlope.None? && item.maximumSlope.None?
    ensures |Step(num, [item], faceSize, draws, s, v).log| ==
            |s.log| + (if v.normalizedHeight >= 0.0 then 1 else 0)
  {
    assert draws(s.drawn + 0) == 0.0;
  }

  /**
   * The item loop of one face (normalised height `normalizedHeight`,
   * steepness `steepness`, displaced first corner `a`): items are tried in
   * order, each on the next draw, and the first accepted one is placed,
   * after which the loop stops. `placed` is `placedVegetation`, `log` the
   * biome's `addVegetation` calls so far, `drawn` the draws used so far.
   */
  method PlaceVegetation(num: Numerics, items: seq<VegetationItem>, faceSize: real, draws: nat -> real,
                         drawn: nat, placed: map<string, seq<Vec>>, log: seq<Placement>,
                         normalizedHeight: real, steepness: real, a: Vec)
    returns (drawn': nat, placed': map<string, seq<Vec>>, log': seq<Placement>)
    ensures VegState(drawn', placed', log') ==
      Step(num, items, faceSize, draws, VegState(drawn, placed, log), FaceView(normalizedHeight, steepness, a))
  {
    drawn', placed', log' := drawn, placed, log;
    ghost var chosen: Option<nat> := None;
    for j := 0 to |items|
      invariant drawn' == drawn + j && placed' == placed && log' == log && chosen.None?
      invariant forall k :: 0 <= k < j ==>
        !Accepts(items[k], draws(drawn + k), faceSize, normalizedHeight, steepness)
    {
      var vegetation := items[j];
      var draw := draws(drawn');
      drawn' := drawn' + 1;
      if draw < faceSize * vegetation.density.GetOr(1.0) {
        if vegetation.minimumHeight.Some? && normalizedHeight < vegetation.minimumHeight.value {
          continue;
        }
        if vegetation.minimumHeight.None? && normalizedHeight < 0.0 {
          continue;
        }
        if vegetation.maximumHeight.Some? && normalizedHeight > vegetation.maximumHeight.value {
          continue;
        }
        if vegetation.minimumSlope.Some? && steepness < vegetation.minimumSlope.value {
          continue;
        }
        if vegetation.maximumSlope.Some? && steepness > vegetation.maximumSlope.value {
          continue;
        }
        if vegetation.name !in placed' {
          placed' := placed'[vegetation.name := []];
        }
        var height := num.length(a);
        placed' := placed'[vegetation.name := placed'[vegetation.name] + [Scale(num.normalize(a), height + Clearance)]];
        log' := log' + [Placement(vegetation, num.normalize(a), normalizedHeight, steepness)];
        chosen := Some(j);
        break;
      }
    }
    var spec := FirstAccepted(items, draws, drawn, faceSize, normalizedHeight, steepness);
    assert spec.Some? && chosen.Some? ==> spec.value == chosen.value;
    assert chosen.None? ==> spec.None?;
  }
}
