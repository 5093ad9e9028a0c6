# tiny-planets geometry worker, modelled in Dafny

This project models the planet-generation core of tiny-planets. That core has two parts.

The first is the geometry web worker (`src/worlds/worker.ts`). It answers a "createGeometry" message by building two icospheres at the requested detail: the land sphere and the ocean sphere.

Pass 1 visits every face, three corners at a time:

- It looks up each corner in a memo cache keyed by the corner's quantised position. On a miss it computes the corner's height, scatter offset, sea height and sea-morph height from the biome and the noise field.
- It displaces the corner on both spheres and records the ocean morph target.
- It flat-shades the face: one normal and one colour per face, on land and on the ocean.
- It tries to place one vegetation item on the face.

Pass 2 asks the biome how the placed vegetation raises each land corner and recolours each land face. It then moves the land corners and repaints them.

The reply carries nine buffers (positions, colours and normals of land and ocean, the vegetation points, and the ocean morph positions and normals) together with the request id.

The second part is the model catalog (`src/worlds/models.ts`): a constant table of low-poly nature models, `getModels`, and the path builder `getModelPathsAndMaterials`.

Module layout:

- `Options`, `Vectors`: option values, 3-vectors and colours.
- `Oracles`: what the model does not look inside, as total functions in records:
  - `Numerics`: `normalize`, `length`, `distanceTo`, `Math.acos`, the `toFixed(5)` key, the noise field and the icosphere buffer.
  - `Biome`: heights, colours, the vegetation blend, the extrema and the vegetation options.
  - The request setup (`ContextOf`).
- `VertexCache`: the memo cache as a first-wins table over the corners in buffer order.
- `FaceShading`: per-corner positions and per-face normals, heights, steepness and colours.
- `Surfaces`: those values laid out as whole buffers.
- `Vegetation`: the per-face item loop and the vegetation state it threads through pass 1.
- `PassOne`, `PassTwo`: the two face loops over arrays, each proved to leave every buffer at its target.
- `Worker`: `createGeometry`, the produced geometry, and the message handler.
- `Models`: the catalog.

Every fact proved about the worker holds for every behaviour of the oracles.

## Model

| member | source | states |
|---|---|---|
| Oracles.ContextOf | src/worlds/worker.ts:68-112 | The setup uses the icosphere at `detail ?? 50` and the biome's extrema. The side length is the distance between the first two base corners, and the scatter amount is `(scatter ?? 1.2)` times it. The face areas sum to 4π over all faces. |
| Oracles.IcosahedronVertexCount | src/worlds/worker.ts:73-75 | A non-indexed icosphere has a positive vertex count divisible by 3, so `faceCount` is a whole number of faces. |
| Oracles.VegetationItems | src/worlds/worker.ts:291-295 | Without a vegetation option, the item loop visits no item. |
| VertexCache.CanonicalCorner | src/worlds/worker.ts:157-158 | The corner whose record a corner receives shares its key, comes no later, and is the first corner with that key. |
| VertexCache.FirstWinsStep | src/worlds/worker.ts:158-188 | On a hit, the memo table already holds the first-occurrence value and does not change. On a miss, this is the key's first occurrence, and the table gains exactly that key. |
| VertexCache.CacheAfterStep | src/worlds/worker.ts:158-188 | Looking up corner n: on a hit, the cache holds that corner's record and stays unchanged. On a miss, n is its key's first corner, and the cache gains exactly the freshly computed record. |
| VertexCache.CacheOnlyGrows | src/worlds/worker.ts:181-187 | A stored record is never replaced or removed by later corners. |
| VertexCache.SeamConsistency | src/worlds/worker.ts:157-191 | Corners with equal keys share their first corner and receive the identical record. |
| VertexCache.ResolveVertex | src/worlds/worker.ts:157-188 | One cache access returns the memo value for the corner's key. On a hit it returns the stored record and leaves the cache as it was. On a miss it computes the record and stores it under the key. Either way, the new cache is the first-wins table one corner further. |
| FaceShading.RecordsAgreeOnKeys | src/worlds/worker.ts:191 | In `calculatedVerticesArray`, corners that share a cache key hold identical records. |
| FaceShading.CoincidentCornersStayTogether | src/worlds/worker.ts:196-216 | Corners that start at the same position end at the same land, ocean and morph-target position. |
| FaceShading.NormalizedHeightOfSeaLevel | src/worlds/worker.ts:219-223 | A face at sea level has normalised height 0 for any extrema. |
| FaceShading.NormalizedHeightRange | src/worlds/worker.ts:219-224 | With min < 0 < max, the normalised height is `avg / max` above sea level and `avg / -min` below, and has the sign of the raw height (both directions). It lies in [-1, 1] when the raw height lies between the extrema. |
| FaceShading.FillFace | src/worlds/worker.ts:230-232 | The three slots of the face hold the face's vector, and every other slot is unchanged. |
| FaceShading.FillFaceColor | src/worlds/worker.ts:243-255 | The nine colour slots of the face hold the colour, and every other slot is unchanged. |
| Vegetation.FirstAcceptedFrom | src/worlds/worker.ts:291-347 | The chosen item accepts its draw, its height window and its slope window, and every earlier item rejects on its own draw. When none is chosen, every item rejects. |
| Vegetation.AppendPoint | src/worlds/worker.ts:330-339 | The item's point list gains exactly the new point at its end, and every other name's list is untouched. This is the intended effect; see Findings for inherited names. |
| Vegetation.AppendPointAsWritten | src/worlds/worker.ts:330-339 | As written, the push throws exactly when the name has no list yet and is an inherited `Object.prototype` member. Otherwise it has the effect of `AppendPoint`. |
| Vegetation.ConstructorItemThrows | src/worlds/worker.ts:330-334 | As written, the first placement of an item named "constructor" throws, where `AppendPoint` starts that item's list with the point. |
| Vegetation.StepDraws | src/worlds/worker.ts:291-297 | One face takes at most one random draw per item, and at least one when any item is configured. |
| Vegetation.StepLog | src/worlds/worker.ts:330-347 | One face records at most one `addVegetation` call, appended to the earlier ones. It is for a configured item whose windows the face passes, with the face's height and steepness. |
| Vegetation.StepPoints | src/worlds/worker.ts:330-339 | One face adds one point to the list of the item it records, and nothing to any other list. |
| Vegetation.PlacementsRespectWindows | src/worlds/worker.ts:299-328 | Every recorded placement is of a configured item whose height and slope windows its face passed. |
| Vegetation.PlacementCountBounded | src/worlds/worker.ts:291-349 | There is at most one placement per face, and at most one draw per item per face. |
| Vegetation.PointsMatchPlacements | src/worlds/worker.ts:330-346 | Each name's list holds exactly as many points as there are placements of that name. |
| Vegetation.NoItemsNoPlacements | src/worlds/worker.ts:291-295 | With no items, no draw is taken and nothing is placed. |
| Vegetation.SingleItemAlwaysDrawingZero | src/worlds/worker.ts:297-308 | With one density-1 item whose minimum height is 0, and every draw 0, a face gets the item exactly when its normalised height is not below sea level. |
| Vegetation.PlaceVegetation | src/worlds/worker.ts:290-349 | The item loop with its `continue`s and `break` ends in the state of one scatter step: the draws used, the point appended and the call recorded. |
| PassOne.MoveCorner | src/worlds/worker.ts:157-216 | One corner gets its cached record and its displaced land, morph-target and ocean positions, and the cache moves one corner on. |
| PassOne.DisplaceCorner | src/worlds/worker.ts:196-216 | Writing corner p back extends the displaced prefix of both position buffers and of the morph-target list by one corner. |
| PassOne.DisplaceFace | src/worlds/worker.ts:151-217 | The corner loop displaces the face's three corners and sums `height - 1` over them. It returns the displaced corners on land, on the ocean sphere and in the morph target. |
| PassOne.ShadeLand | src/worlds/worker.ts:227-255 | The face's three land normals and, when the biome gives a colour, its nine land colour slots reach their targets. It returns the face's steepness. |
| PassOne.ShadeOcean | src/worlds/worker.ts:257-288 | The face's sea colour slots and ocean normals reach their targets. The morph-target normal is pushed once per corner. |
| PassOne.PaintFace | src/worlds/worker.ts:243-255 | Zeroed colour slots take the colour when there is one and stay zero otherwise. |
| PassOne.ShadeFace | src/worlds/worker.ts:227-349 | Shading and the vegetation attempt of one face extend every per-face buffer by that face. The vegetation state is one scatter step further. |
| PassOne.FirstPassFace | src/worlds/worker.ts:136-350 | One pass of the face loop turns the pass-1 state after f faces into the state after f + 1. |
| PassOne.FirstPass | src/worlds/worker.ts:136-350 | The loop starts from the base positions and zeroed colours. It leaves the land and ocean positions displaced, and every normal, colour and morph-target buffer at its target. The record list is the cache's records, and the vegetation state is the scatter over all faces. |
| PassTwo.SlotColorOfFlatFace | src/worlds/worker.ts:365 | Reading the first corner's colour slots of a flat-shaded face gives the face's colour. |
| PassTwo.ReliefOfCorner | src/worlds/worker.ts:375-386 | After pass 2, each land corner lies along its pass-1 direction, at its cached height plus its face blend's offset for that corner. |
| PassTwo.ReliefSeam | src/worlds/worker.ts:375-386 | Two corners that leave pass 1 at the same place with the same record stay together whenever their faces' blends offset them alike. |
| PassTwo.RepaintOfAt | src/worlds/worker.ts:388-399 | After pass 2, the face's nine colour slots hold its blend's colour. |
| PassTwo.WriteCorners | src/worlds/worker.ts:384-386 | Writing the next face's target corners extends the finished prefix of the position buffer by one face. |
| PassTwo.WriteColors | src/worlds/worker.ts:389-399 | Writing the next face's target colour extends the finished prefix of the colour buffer by nine slots. |
| PassTwo.ReliefFace | src/worlds/worker.ts:357-399 | One pass of the second loop advances the finished prefix by one face, and the rest stays as pass 1 left it. |
| PassTwo.SecondPass | src/worlds/worker.ts:356-400 | Starting from the pass-1 land buffers, the loop leaves positions and colours exactly at the relieved and repainted targets. |
| Worker.GeometryFor | src/worlds/worker.ts:85-86 | There is one position and one normal per corner on both spheres, and three colour slots and three morph coordinates per corner. |
| Worker.GeometryOf | src/worlds/worker.ts:65-76 | The buffer sizes follow from `detail ?? 50`: 60(detail+1)² corners. |
| Worker.FirstPassBuffers | src/worlds/worker.ts:68-350 | Fresh buffers after pass 1 hold the displaced land and ocean surfaces, the flat normals and colours, the morph-target lists and the vegetation scatter. |
| Worker.Generate | src/worlds/worker.ts:136-414 | Both passes over fresh buffers produce the geometry of the setup. |
| Worker.CreateGeometry | src/worlds/worker.ts:65-415 | `createGeometry` returns the geometry of the request. |
| Worker.LandSlotColor | src/worlds/worker.ts:240-255 | The colour that pass 2 reads back for a face is the face's pass-1 land colour, or black when the biome gave none. |
| Worker.GeometryLand | src/worlds/worker.ts:356-400 | The returned land positions and colours are pass 2's relief and repaint of the pass-1 land surface. |
| Worker.GeometryShading | src/worlds/worker.ts:227-280 | The returned normals, ocean positions and sea colours are as pass 1 leaves them. |
| Worker.GeometryMorph | src/worlds/worker.ts:402-409 | The morph attributes are the flattened morph-target positions and the per-corner morph-target face normals. |
| Worker.FaceOutputInputs | src/worlds/worker.ts:357-373 | The blend of a face sees the directions of its displaced corners, its pass-1 land colour (black if none), the side length and every placement of pass 1. |
| Worker.LandCornerAfterBlend | src/worlds/worker.ts:375-386 | In the returned geometry, each land corner lies along its pass-1 direction, at its cached height plus its face blend's offset. |
| Worker.FlatFaces | src/worlds/worker.ts:227-399 | Per face, the returned land and ocean normals are the displaced faces' normals on all three corners. The sea colour (black if none) and the blend's land colour fill all nine slots. |
| Worker.MorphPositionsAt | src/worlds/worker.ts:204-205 | Coordinate k of corner p in the morph positions is that coordinate of the corner's morph-target position. |
| Worker.MorphNormalsAt | src/worlds/worker.ts:282-288 | Coordinate k of every corner of a face in the morph normals is that coordinate of the face's morph-target normal. |
| Worker.OceanSeams | src/worlds/worker.ts:157-216 | Corners at the same base position get the same ocean position and the same morph-target coordinates in the reply. |
| Worker.VegetationOfGeometry | src/worlds/worker.ts:290-349 | The returned vegetation has at most one placement per face, each of a configured item whose windows the face passed. It has one point per placement under the item's name, and nothing at all without vegetation options. |
| Worker.OnMessage | src/worlds/worker.ts:14-63 | A "createGeometry" request gets exactly one "geometry" reply with the request's geometry and id, and no error is logged. Any other type gets no reply and one error naming the type. |
| Models.Find | src/worlds/models.ts:97 | An entry found under a name is stored under that name in the table. |
| Models.FindSucceedsOnKeys | src/worlds/models.ts:97-98 | A lookup finds an entry exactly when the name is one of the table's keys. |
| Models.GetModels | src/worlds/models.ts:84-88 | `getModels` reports one name per catalog entry. |
| Models.GetModelsAreExactlyTheResolvableNames | src/worlds/models.ts:84-101 | A name is reported by `getModels` exactly when the catalog lookup finds it (both directions). |
| Models.DecimalRoundTrip | src/worlds/models.ts:107 | Reading back the decimal form of a version number gives the number. |
| Models.DecimalStringInjective | src/worlds/models.ts:107 | Different version numbers have different decimal forms. |
| Models.VersionedPathInjective | src/worlds/models.ts:105-110 | Different version numbers give different paths for the same model. |
| Models.PathsAndMaterialsFor | src/worlds/models.ts:103-118 | A truthy `versions` of n gives paths `_1` … `_n` in order, and any other value gives the single unnumbered path. The materials pass through unchanged, and every path lies under the base path and ends in `.gltf`. |
| Models.LookupPathsAndMaterials | src/worlds/models.ts:97-118 | The result is null exactly for a name the table does not hold. Otherwise it holds the entry's materials and its paths: `_1` … `_n` in order for a truthy `versions` of n, the single unnumbered path otherwise. Every path lies under the base path and ends in `.gltf`. |
| Models.GetModelPathsAndMaterials | src/worlds/models.ts:90-119 | The result is null exactly for a name `getModels` does not report. Otherwise it carries the catalog entry's materials and its paths: `_1` … `_n` in order for a truthy `versions` of n, the single unnumbered path otherwise. Every path lies under the base path and ends in `.gltf`. |
| Models.PropertyAccess | src/worlds/models.ts:97 | `models[name]` is `undefined` exactly when the name is neither an own key nor an inherited `Object.prototype` member. |
| Models.InheritedNameIsNotRejected | src/worlds/models.ts:97-113 | As written, an inherited member name that the table does not hold passes the `!model` guard and yields one file path. |
| Models.ToStringIsNotAModel | src/worlds/models.ts:7-66 | "toString" is not a catalog name but is an inherited member, and its single path is `/lowpoly_nature/toString.gltf`. |
| Models.ToStringLookupAsWritten | src/worlds/models.ts:97-113 | As written, looking up "toString" in the catalog yields that path instead of null. |

## Left out

- Floating-point geometry is not modelled. `normalize`, `length`, `distanceTo`, `Math.acos`, the noise field and the icosphere buffer are opaque functions (`Numerics`). Vector sums, scalings, cross and dot products are exact real arithmetic. Float32 rounding of the buffers is not modelled.
- The `toFixed(5)` cache key is an opaque function of the position. The seam results hold for corners with equal keys. Distinct positions that round to the same key share a record, as in the source.
- VertexCache.ComputeVertexInfo: the second sea-height sample uses the corner shifted by exactly 100 on each axis. The floating-point round trip of `addScalar(100)` followed by `subScalar(100)` on the corner is taken as exact. In the source, a corner that misses the cache is moved by this round trip before it is displaced. A coincident corner that hits the cache is displaced from its exact position. So FaceShading.CoincidentCornersStayTogether and Worker.OceanSeams hold for the land positions only under this assumption. The ocean corners are never shifted, so the ocean and morph-target positions are unaffected.
- `Math.random()` is the parameter `draws`, whose k-th value is the k-th draw the item loop consumes.
- Vegetation.Step: the log records the direction passed to `addVegetation` as its value at the time of the call. In the source that direction is the scratch vector of the face's first corner, which the next face overwrites. A biome that keeps the reference instead of copying it would see it change, and so would pass 2's blend. The biome's source is not part of this model.
- Vegetation.AppendPoint and Worker.OnMessage model the intended push. For an item named after an `Object.prototype` member ("constructor", "toString", "hasOwnProperty", …), the source throws a `TypeError` out of `onmessage` and posts no reply (see Findings and Vegetation.AppendPointAsWritten). The single reply promised by Worker.OnMessage assumes that no configured item has such a name.
- The biome's internal vegetation state is not modelled. It is passed to the blend oracle explicitly, as the list of `addVegetation` calls made in pass 1.
- Oracles.ValidRequest requires non-zero biome extrema. The source would then divide by zero and produce IEEE infinities or NaN, which real arithmetic cannot represent. It also requires that the icosphere have its documented vertex count.
- The icosphere's own normals are not modelled: pass 1 overwrites every one of them. The land normals are not recomputed after pass 2 moves the land corners, in the model as in the source.
- `postMessage` transfer lists, the `ArrayBuffer` views, `console.log("faces:")` and `console.error` in `getModelPathsAndMaterials` are left out. The worker's error line is kept as a value.
- `loadModels` (glTF loading, material lookup and scene-graph edits) is left out, because it is asynchronous I/O against three.js.
- `calculatedVerticesArray` is created with `faceCount` slots and grows as JavaScript arrays do. The model uses a sequence of the records.
- PassTwo.ReliefSeam: land corners that share a key stay together after pass 2 only when their faces' blends offset them alike. The blend is an oracle, so no unconditional land-seam guarantee is stated.

## Findings

| source | as written | input that shows it | evidently intended | confidence | as-written member | corrected member |
|---|---|---|---|---|---|---|
| src/worlds/models.ts:97-101 | `models[name]` also reads members inherited from `Object.prototype`, so the `!model` guard lets them through | `getModelPathsAndMaterials("toString")` returns `filePaths: ["/lowpoly_nature/toString.gltf"]` instead of null | only the catalog's own names resolve; any other name is reported and null is returned | not executed | Models.ToStringLookupAsWritten | Models.GetModelPathsAndMaterials |
| src/worlds/worker.ts:330-334 | `placedVegetation[name]` on an object literal also finds inherited `Object.prototype` members, so no list is created, and `push` is called on the inherited member | a biome whose vegetation items include one named "constructor", placed on any face: `push` throws a `TypeError`, and `onmessage` posts no reply | each item's list is created on its first placement, whatever its name | not executed | Vegetation.ConstructorItemThrows | Vegetation.AppendPoint |
