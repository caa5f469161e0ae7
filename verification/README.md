# Terrain generator core in Dafny

This project models the pure pipeline of react-terrain-generator:

- **Noise.** Seeded white noise is smoothed per octave and blended into normalised multi-octave noise.
- **Biomes.** Elevation, temperature and moisture values are banded by fixed cut-offs and classified into one of fourteen reachable biomes (the enum has sixteen). Each biome has a fixed RGB colour.
- **Terrain map.** The three grids are fused into a flat, column-major list of centred points that carry optional biomes.
- **Mesh.** The mesh generator turns a terrain map into scaled wireframe lines and quad buffers: vertices, triangle indices and per-vertex colours. It also records the grid's centre point.
- **Small helpers.**
  - Settings defaulting.
  - The plane-drawer `detailLevel` accessor.
  - The conversion of a canvas position to a map cell.

Everything is immutable data and pure functions over `real` and `int`. Most loops of the source are methods with loop invariants. The smoothing loop and the normalisation loop are sequence comprehensions (`NoiseGenerator.SmoothNoise`, `NoiseGenerator.Normalize`).

- **Randomness.** The random stream is a parameter `rng(seed, k)`, the k-th draw of the stream seeded with `seed`.
- **Cosine.** `Math.cos` is a parameter `cos`. It is constrained by `MathUtil.IsCosine`: cos 0 = 1, cos π = −1, and every value lies in [−1, 1].
- **The random default seed.** The default seed of `Settings` is a parameter `fallbackSeed`.
- **The centre point.** The mesh generator keeps it in a static field. Here it is passed in and handed back.
- **Grid positions.** Products of grid sizes are written `MathUtil.Mul(a, b)`: `b` added `a` times. `MathUtil.MulIsProduct` proves it equals `a * b`.

Modules, one per file:

| module | file | models |
|---|---|---|
| Wrappers | wrappers.dfy | `Option`, `Result` |
| MathUtil | math_util.dfy | src/util/MathUtil.ts, plus `1 << k` and powers |
| Biomes | biome.dfy | src/terrain/Biome.ts |
| MapInterpreter | map_interpreter.dfy | src/util/MapInterpreter.ts |
| GeneratorSettings | settings.dfy | src/util/Settings.ts, src/util/PlaneDrawerSettings.ts |
| NoiseGenerator | noise_generator.dfy | src/util/NoiseGenerator.ts |
| Terrain | terrain_map.dfy | src/terrain/TerrainMap.ts |
| MeshGenerator | mesh_generator.dfy | src/util/MeshGenerator.ts |
| NoiseMapRenderer | noise_map_renderer.dfy | `canvasPointToMapPoint` of src/components/renderers/NoiseMapRenderer.tsx |

Behaviour of the code worth noting:

- **No elevation range or vertical recentring.** `TerrainMap` keeps no lowest or highest elevation, and `MeshGenerator` applies no height offset. The model has neither.
- **The grid is not centred on 0.** Points are centred by real division, as (col − width/2, e, row − height/2). Mirrored columns therefore sum to −1, so the grid is centred on −1/2 (`Terrain.Centering`).
- **The centre cell uses floor division.** The centre point is the scaled cell at column ⌊width/2⌋ and row ⌊height/2⌋.
- **Some maps throw.** A terrain map built from three empty grids throws, because it reads `temperatureMap[0].length`. `generatePerlinNoise` with no octaves on a non-empty grid throws, because it reads output columns that were never created. Both are modelled as `Err` results.
- **A zero total amplitude gives non-finite noise.** `generatePerlinNoise` divides every cell by the total amplitude p¹ + … + pⁿ. With persistence −1 and an even octave count that total is 0, and the division yields NaN or ±Infinity cells instead of throwing. The model has no non-finite reals, so this third case is also an `Err` result: `NonFiniteResult`.

## Model

| member | source | states |
|---|---|---|
| MathUtil.CosineWeight | src/util/MathUtil.ts:8-9 | the cosine weight lies in [0, 1]; it is 0 at alpha 0 and 1 at alpha 1 |
| MathUtil.Interpolate | src/util/MathUtil.ts:7-11 | the result lies between the two ends; it is the first end at alpha 0 and the second at alpha 1; equal ends give that value for every alpha |
| MathUtil.ConvexCombination | src/util/MathUtil.ts:10 | a convex combination of two reals lies between them |
| MathUtil.Clamp | src/util/MathUtil.ts:13-15 | the result lies in [min, max] when min ≤ max; values already in range are unchanged; the result is the value, min or max |
| MathUtil.ClampIdempotent | src/util/MathUtil.ts:13-15 | clamping twice equals clamping once |
| MathUtil.Pow2 | src/util/NoiseGenerator.ts:87 | the octave period 2^k is at least 1 |
| Biomes.Label | src/terrain/Biome.ts:3-20 | every enum string is a capitalised name of at least four letters, containing a space exactly for Temperate Desert, Scorched Desert and Rain Forest |
| Biomes.ParseLabel | src/terrain/Biome.ts:3-20 | a recognised label names a biome whose label is that string |
| Biomes.ParseLabelRoundTrip | src/terrain/Biome.ts:3-20 | parsing a biome's label gives the biome back |
| Biomes.LabelsDistinct | src/terrain/Biome.ts:3-20 | two biomes have the same label exactly when they are the same biome |
| Biomes.BiomeColor | src/terrain/Biome.ts:22-110 | every colour component is an integer in 0..255; the colour is black exactly when there is no biome |
| Biomes.ColorBiome | src/terrain/Biome.ts:27-106 | reverse lookup: a recognised colour belongs to a biome whose colour it is |
| Biomes.ColorRoundTrip | src/terrain/Biome.ts:22-110 | looking a biome's colour back up gives the biome, and black gives no biome |
| Biomes.ColorInjective | src/terrain/Biome.ts:27-106 | two optional biomes have the same colour exactly when they are equal |
| MapInterpreter.GetElevation | src/util/MapInterpreter.ts:30-38 | the elevation band is the half-open interval between consecutive cut-offs that contains the value |
| MapInterpreter.GetTemperature | src/util/MapInterpreter.ts:40-47 | the temperature band is the half-open interval between consecutive cut-offs that contains the value |
| MapInterpreter.GetMoisture | src/util/MapInterpreter.ts:49-56 | the moisture band is the half-open interval between consecutive cut-offs that contains the value |
| MapInterpreter.BiomeForBands | src/util/MapInterpreter.ts:58-290 | the decision table on bands, first match in source order: it never gives Lake or Shrubland, gives Ocean exactly at sea level, and gives Snow on a peak that is not warm or hot |
| MapInterpreter.GetBiome | src/util/MapInterpreter.ts:58-290 | every real triple is classified, never as Lake or Shrubland, and as Ocean exactly below the sea-level cut-off |
| MapInterpreter.BandMonotone | src/util/MapInterpreter.ts:30-56 | with increasing cut-offs, a larger value never falls in a lower band |
| MapInterpreter.BandUnique | src/util/MapInterpreter.ts:30-56 | with increasing cut-offs, every value lies in exactly one band |
| MapInterpreter.GetElevationIff | src/util/MapInterpreter.ts:30-38 | getElevation returns band b exactly when the value lies in b's interval |
| MapInterpreter.GetTemperatureIff | src/util/MapInterpreter.ts:40-47 | getTemperature returns band b exactly when the value lies in b's interval |
| MapInterpreter.GetMoistureIff | src/util/MapInterpreter.ts:49-56 | getMoisture returns band b exactly when the value lies in b's interval |
| MapInterpreter.BandingMonotone | src/util/MapInterpreter.ts:30-56 | each banding function is monotone non-decreasing |
| MapInterpreter.GetBiomeNeverLakeOrShrubland | src/util/MapInterpreter.ts:58-290 | getBiome is total, and under first-match semantics it never yields Lake or Shrubland |
| MapInterpreter.GetBiomeNeverLakeOrShrublandAll | src/util/MapInterpreter.ts:58-290 | every triple of reals is classified into one of the fourteen reachable biomes |
| MapInterpreter.GetBiomeImage | src/util/MapInterpreter.ts:58-290 | a biome is produced by some triple in [0,1]^3 exactly when it is one of the fourteen reachable biomes |
| MapInterpreter.SeaLevelIsOcean | src/util/MapInterpreter.ts:59-61 | elevation below 0.17 gives Ocean for every temperature and moisture |
| MapInterpreter.CutOffsAreExclusive | src/util/MapInterpreter.ts:9-32 | a value exactly at a cut-off gets the higher band, e.g. elevation 0.17 is Low |
| MapInterpreter.LowGroundTundraOrBeach | src/util/MapInterpreter.ts:63-76 | on low ground the biome is Tundra exactly when temperature < 0.4 and moisture < 0.3, otherwise Beach |
| MapInterpreter.ValleyMoistIsRainForest | src/util/MapInterpreter.ts:90-101 | valley ground with temperature in [0.4, 0.65) and moisture in [0.55, 0.7) is RainForest, not Forest |
| MapInterpreter.PeakIsSnowUnlessWarm | src/util/MapInterpreter.ts:274-279 | peaks with temperature below 0.65 are Snow, whatever the moisture |
| GeneratorSettings.OrDefault | src/util/Settings.ts:14-18 | JavaScript `x \|\| d`: the field when present and not falsy, otherwise the default |
| GeneratorSettings.NewSettings | src/util/Settings.ts:13-21 | a non-empty seed is kept; the dimensions are the given values or 0; octaves is the given value if non-zero, else 8, so never 0; persistence is the given value if non-zero, else 0.5, so never 0; the gradients default to 0xfff and 0 |
| GeneratorSettings.CopyPreservesSettings | src/util/Settings.ts:13-21 | copy-constructing reproduces a settings object exactly when its seed, octaves and persistence are not falsy (or the seed equals the fallback) |
| GeneratorSettings.NewSettingsIdempotent | src/util/Settings.ts:13-21 | constructing again from constructed settings changes nothing |
| GeneratorSettings.NewPlaneDrawerSettings | src/util/PlaneDrawerSettings.ts:9-16 | scaleSize and heightAmplify default to 3 and 100 when absent or 0; wireframe and autoRotate are true unless explicitly false |
| GeneratorSettings.SetDetailLevel | src/util/PlaneDrawerSettings.ts:18-21 | both dimensions become the value and no other field changes |
| GeneratorSettings.DetailLevel | src/util/PlaneDrawerSettings.ts:23-26 | the detail level is the larger of the two dimensions |
| GeneratorSettings.DetailLevelRoundTrip | src/util/PlaneDrawerSettings.ts:18-26 | reading the detail level after setting it returns the value set |
| NoiseGenerator.GenerateWhiteNoise | src/util/NoiseGenerator.ts:63-76 | the white noise is width columns of height values, and cell (x, y) holds draw number x·height + y of the seeded stream |
| NoiseGenerator.WhiteNoiseDeterministic | src/util/NoiseGenerator.ts:63-76 | one seed and size determine the white noise uniquely |
| NoiseGenerator.WhiteNoiseInUnit | src/util/NoiseGenerator.ts:60-76 | white noise drawn from a unit stream lies in [0, 1] |
| NoiseGenerator.NewGenerator | src/util/NoiseGenerator.ts:21-24 | the generator holds its own defaulted copy of the settings, and white noise consistent with them |
| NoiseGenerator.SetSeed | src/util/NoiseGenerator.ts:30-33 | only the seed changes, and the white noise is redrawn for the new seed |
| NoiseGenerator.SetDimensions | src/util/NoiseGenerator.ts:44-48 | only the dimensions change, and the white noise is redrawn at the new size |
| NoiseGenerator.ChangeSettings | src/util/NoiseGenerator.ts:54-57 | the settings are taken as given, and the white noise is redrawn for them |
| NoiseGenerator.SameSeedSameNoise | src/util/NoiseGenerator.ts:30-48 | two generators with the same seed and size hold identical white noise |
| NoiseGenerator.Anchor | src/util/NoiseGenerator.ts:94 | the anchor is at most the index and less than one period below it |
| NoiseGenerator.NextAnchor | src/util/NoiseGenerator.ts:95 | the wrapped second anchor lies inside the grid |
| NoiseGenerator.BlendFactor | src/util/NoiseGenerator.ts:96 | the blend factor lies in [0, 1) |
| NoiseGenerator.SmoothingIndicesInBounds | src/util/NoiseGenerator.ts:94-106 | every white-noise read of the smoothing step is in bounds, and both blend factors lie in [0, 1) |
| NoiseGenerator.SmoothCell | src/util/NoiseGenerator.ts:94-109 | a smoothed cell with period 1 is the white-noise cell itself; with white noise in [0, 1] it lies in [0, 1] |
| NoiseGenerator.SmoothNoise | src/util/NoiseGenerator.ts:83-114 | the smooth noise of an octave has the generator's dimensions |
| NoiseGenerator.SmoothOctaveZero | src/util/NoiseGenerator.ts:87-109 | octave 0 has period 1, and its smooth noise is exactly the white noise |
| NoiseGenerator.SmoothNoiseInUnit | src/util/NoiseGenerator.ts:104-109 | smoothing white noise in [0, 1] stays in [0, 1] |
| NoiseGenerator.Octaves | src/util/NoiseGenerator.ts:133-136 | every smoothed octave has the generator's dimensions |
| NoiseGenerator.SmoothAllOctaves | src/util/NoiseGenerator.ts:133-136 | the smoothing loop yields the smooth noise of octaves 0 .. n−1, in order |
| NoiseGenerator.BlendedBounds | src/util/NoiseGenerator.ts:139-160 | with positive persistence and octaves in [0, 1], the weighted sum lies between 0 and the sum of the weights |
| NoiseGenerator.GeometricPositive | src/util/NoiseGenerator.ts:143-145 | with positive persistence the total amplitude of at least one octave is positive |
| NoiseGenerator.AddOctave | src/util/NoiseGenerator.ts:147-159 | every cell gains the octave's value times the amplitude, and the shape is kept |
| NoiseGenerator.BlendOctaves | src/util/NoiseGenerator.ts:139-160 | octaves are visited from n−1 down to 0; octave k carries weight p^(n−k), and the total amplitude is p^1 + … + p^n |
| NoiseGenerator.Normalize | src/util/NoiseGenerator.ts:162-167 | each output cell times the total amplitude is the accumulated cell |
| NoiseGenerator.BlendAndNormalize | src/util/NoiseGenerator.ts:139-167 | the result yields non-finite cells (modelled as Err) exactly when the total amplitude is 0 on a non-empty grid; otherwise it is the normalised weighted sum |
| NoiseGenerator.WeightedMeanInUnit | src/util/NoiseGenerator.ts:162-167 | a normalised weighted sum of octaves in [0, 1] lies in [0, 1] |
| NoiseGenerator.PerlinNoiseInUnit | src/util/NoiseGenerator.ts:121-169 | with at least one octave, positive persistence and white noise in [0, 1], Perlin noise lies in [0, 1] |
| NoiseGenerator.GeneratePerlinNoise | src/util/NoiseGenerator.ts:121-170 | no octaves throws on a non-empty grid; otherwise it yields non-finite cells (modelled as Err) exactly when the total amplitude is 0 on a non-empty grid, and succeeds with the normalised blend; with positive persistence and unit white noise the result is width×height and lies in [0, 1] |
| Terrain.SizeError | src/terrain/TerrainMap.ts:23-33 | the check fails exactly when all three maps are given and a width or first-column length differs; all three empty is the read of undefined |
| Terrain.FusePoints | src/terrain/TerrainMap.ts:35-52 | there are width·height points, and index col·height + row holds the expected point of cell (col, row) |
| Terrain.FlatIndexOnto | src/terrain/TerrainMap.ts:35-52 | every position below width·height is the column-major position of some cell |
| Terrain.FlatIndexInjective | src/terrain/TerrainMap.ts:35-52 | two cells with the same column-major position are the same cell |
| Terrain.Build | src/terrain/TerrainMap.ts:15-53 | construction throws exactly on mismatched sizes; otherwise width and height come from the elevation map, the points are column-major, each is (col − width/2, elevation, row − height/2), and a biome is set iff temperature and moisture are both given, equal to getBiome at that cell |
| Terrain.Centering | src/terrain/TerrainMap.ts:20-42 | the first column sits at x = −width/2, and mirrored columns sum to −1 |
| Terrain.GetPoint | src/terrain/TerrainMap.ts:55-57 | getPoint reads index x·width + y, and is undefined exactly past the end |
| Terrain.GetPointSquare | src/terrain/TerrainMap.ts:55-57 | on a square map getPoint returns the point of cell (x, y) |
| Terrain.GetPointAgrees | src/terrain/TerrainMap.ts:55-57 | getPoint agrees with the layout on every cell of a square map, a map with one column, or a map with no rows |
| Terrain.GetPointMisreads | src/terrain/TerrainMap.ts:55-57 | on a built map with width ≠ height, width ≥ 2 and a row, getPoint(1, 0) is not cell (1, 0) |
| Terrain.GetPointAgreesIff | src/terrain/TerrainMap.ts:55-57 | on a built map, getPoint agrees with the layout everywhere exactly when the map is square, has at most one column, or has no rows |
| Terrain.PointAt | src/terrain/TerrainMap.ts:35-57 | the corrected read: defined exactly on the cells of the map, and it returns the entry at col·height + row |
| MeshGenerator.ScalePoint | src/util/MeshGenerator.ts:164-171 | no settings returns the point; otherwise x and z are scaled by scaleLengthAndWidth and y by scaleHeight |
| MeshGenerator.ScaleRoundTrip | src/util/MeshGenerator.ts:164-171 | scaling by non-zero factors, then by their reciprocals, returns the original point |
| MeshGenerator.ScaleInjective | src/util/MeshGenerator.ts:164-171 | scaling by non-zero factors sends distinct points to distinct points |
| MeshGenerator.RowLine | src/util/MeshGenerator.ts:53-61 | a row line holds the scaled cells of its row, left to right, and records the centre when passing the centre cell |
| MeshGenerator.ColumnLine | src/util/MeshGenerator.ts:70-73 | a column line holds the scaled cells of its column, bottom to top |
| MeshGenerator.RowLines | src/util/MeshGenerator.ts:50-64 | height row lines of width points; the centre afterwards is the scaled centre cell of a non-empty grid, or the previous centre |
| MeshGenerator.ColumnLines | src/util/MeshGenerator.ts:67-76 | width column lines of height points |
| MeshGenerator.WireframeCrossing | src/util/MeshGenerator.ts:49-76 | row line r and column line c both hold the scaled cell (c, r) |
| MeshGenerator.GenWireframe | src/util/MeshGenerator.ts:45-86 | the wireframe is the row lines followed by the column lines; on a non-empty grid the centre is the middle point of the middle row line, otherwise it is unchanged |
| MeshGenerator.QuadRow | src/util/MeshGenerator.ts:101-129 | one row of quads extends the buffers by width − 1 quads |
| MeshGenerator.GenQuads | src/util/MeshGenerator.ts:91-130 | 4(W−1)(H−1) vertices and colours and 6(W−1)(H−1) indices; quad q's corners are (x1,y1), (x1,y2), (x2,y2), (x2,y1); its indices are 4q + {0,1,3,1,2,3}; each colour is biomeColor of its vertex's cell |
| MeshGenerator.QuadOfNumber | src/util/MeshGenerator.ts:100-105 | numbering quads row by row and reading the number back gives the same bottom-left cell |
| MeshGenerator.QuadNumbering | src/util/MeshGenerator.ts:100-105 | quad numbers below the quad count and the bottom-left cells of quads correspond one to one |
| MeshGenerator.IndicesInRange | src/util/MeshGenerator.ts:122-126 | every index is below the vertex count, and each triangle stays within its own quad's four vertices |
| MeshGenerator.TrianglesShareDiagonal | src/util/MeshGenerator.ts:122-124 | the two triangles of a quad share the top-left/bottom-right diagonal and together use all four corners |
| MeshGenerator.GenerateMeshFor | src/util/MeshGenerator.ts:32-40 | the result is the wireframe exactly when wireframeOnly, otherwise the quad mesh; only the wireframe moves the centre |
| MeshGenerator.ReadAsWritten | src/util/MeshGenerator.ts:54 | `map[i][j].point` on the flat list never yields a point |
| MeshGenerator.WireframeAsWritten | src/util/MeshGenerator.ts:45-76 | as written, the wireframe throws exactly when the map has a cell, reading `.point` of undefined when the list is non-empty; otherwise it is height + width empty lines |
| MeshGenerator.QuadsAsWritten | src/util/MeshGenerator.ts:91-130 | as written, the quads throw exactly when there is at least one quad; otherwise the buffers are empty |
| MeshGenerator.MeshReadsAsWrittenFail | src/util/MeshGenerator.ts:54-118 | as written, the wireframe throws on every map with a cell, and the quads throw on every map with at least two rows and two columns |
| NoiseMapRenderer.Round | src/components/renderers/NoiseMapRenderer.tsx:187 | `Math.round` gives the integer in (v − 1/2, v + 1/2] |
| NoiseMapRenderer.RoundUnique | src/components/renderers/NoiseMapRenderer.tsx:187 | that integer is unique |
| NoiseMapRenderer.RoundInteger | src/components/renderers/NoiseMapRenderer.tsx:187 | rounding an integer returns it |
| NoiseMapRenderer.RoundMonotone | src/components/renderers/NoiseMapRenderer.tsx:187 | rounding is monotone |
| NoiseMapRenderer.MapAxis | src/components/renderers/NoiseMapRenderer.tsx:184-188 | the coordinate lies in [0, mapLength − 1] when mapLength ≥ 1; it is 0 for an empty canvas or a map of length ≤ 1; an in-range rounded value is kept, a rounded value above the range becomes mapLength − 1 (0 for an empty map), and one below 0 becomes 0 |
| NoiseMapRenderer.CanvasPointToMapPoint | src/components/renderers/NoiseMapRenderer.tsx:183-190 | both coordinates lie inside the map when it is non-empty, and are 0 along an axis with zero canvas length or map length ≤ 1 |
| NoiseMapRenderer.SameSizeIdentity | src/components/renderers/NoiseMapRenderer.tsx:184-189 | with canvas size equal to map size, an in-range integer point maps to itself |
| NoiseMapRenderer.MapAxisMonotone | src/components/renderers/NoiseMapRenderer.tsx:187 | one coordinate is monotone non-decreasing in the canvas coordinate |
| NoiseMapRenderer.CanvasPointToMapPointMonotone | src/components/renderers/NoiseMapRenderer.tsx:186-189 | for fixed sizes, the result is monotone non-decreasing in each canvas coordinate |

## Left out

- React components, hooks and App.tsx plumbing: UI event handling with nothing to state.
- The random-word fetch in App.tsx: network I/O.
- three.js objects: `BufferGeometry`, `Line`, `Mesh`, materials and `Float32BufferAttribute` (MeshGenerator.ts:78-84, 132-158). These are foreign library calls. The model returns the buffers they are built from.
- Normals in `_genQuads` (MeshGenerator.ts:127). `normalize()` needs a square root. It also mutates the vertex objects in place, and without scale settings those objects are the terrain map's own points. No claim is made about final positions or normals.
- MeshGenerator.GenQuads: vertices are recorded as the cells they come from, not as positions, for the same reason. Scale settings therefore play no part in the quad model.
- `biomeColor`'s conversion of `rgb(r, g, b)` into a three.js `Color`: foreign code. The model returns the integer triple.
- The PRNG (`seedrandom`, `random`) and `Math.cos`: abstract parameters with stated properties. The unseeded branch of `_generateWhiteNoise` (NoiseGenerator.ts:65) is not modelled, because the seed is always a string after defaulting.
- The random default seed (Settings.ts:14): it depends on `Random.integer`, so it is the parameter `fallbackSeed`.
- Floating point: everything is over `real`, so rounding and overflow of IEEE doubles are not modelled.
- MathUtil.Pow2: `1 << octave` is a 32-bit shift and wraps for octave ≥ 31. The model uses 2^k.
- NoiseGenerator.GeneratePerlinNoise: the octave count is an integer. A fractional count is not modelled.
- NoiseGenerator.GeneratePerlinNoise: a zero total amplitude makes the source return a grid of NaN or ±Infinity cells. The model has no non-finite reals and returns `Err(NonFiniteResult)` instead.
- NoiseGenerator.BlendAndNormalize: a zero total amplitude on a non-empty grid gives `Err(NonFiniteResult)`, where the source divides into NaN or ±Infinity cells.
- NoiseGenerator.Normalize: it requires a non-zero total on a non-empty grid. The source divides by zero there into NaN or ±Infinity cells. Its caller returns `Err(NonFiniteResult)` in that case.
- NoiseGenerator.ChangeSettings: the source stores the caller's own `Settings` object (NoiseGenerator.ts:55), so a later `seed` or `dimensions` setter writes through to it. The constructor copies instead. The model takes settings by value and cannot show this aliasing.
- NoiseGenerator.BlendOctaves: the output columns are created up front. The source creates them lazily during the first octave it visits, which gives the same grid whenever there is at least one octave.
- Terrain.Build: the three grids must be rectangular. The source reads `[col][row]` of ragged arrays as undefined, which this model does not represent. Dimensions are natural numbers.
- GeneratorSettings.NewSettings: `arrWidth` and `arrHeight` are natural numbers here, and so are the arguments of `NoiseGenerator.SetDimensions` and `GeneratorSettings.SetDetailLevel`. In the source they are plain numbers, and nothing stops a negative integer reaching them. The noise pipeline treats a negative size like 0, and `detailLevel` then reads back negative. The model does not represent negative sizes.
- MeshGenerator.GenWireframe: cells are read through `Terrain.At` (column-major, stride height), not as the source writes them. See Findings.
- CameraControls.tsx and StaticClock.ts: camera math and animation timing.
- Defaults.ts: constants only. Its `persistance` key is misspelt, so it never reaches `Settings.persistence`.
- webpack.config.js: build configuration.
- MeshGenerator.GenerateMeshFor: the default `wireframeOnly = false` (MeshGenerator.ts:34) is not a separate member. A call without the argument is the call with `false`.

## Findings

| source | as written | input that shows it | evidently intended | confidence | as-written member | corrected member |
|---|---|---|---|---|---|---|
| src/terrain/TerrainMap.ts:55-57 | `getPoint(x, y)` reads `map[x * width + y]`, but the map is filled column by column with stride `height` | width 3, height 2: `getPoint(1, 0)` reads index 3, which is cell (1, 1), not cell (1, 0) at index 2 | read `map[x * height + y]` | not executed; high, follows from the construction loop order | Terrain.GetPointMisreads | Terrain.PointAt |
| src/util/MeshGenerator.ts:54 | `_genWireframe` and `_genQuads` read `map[row][col]` and `map[x1][y1]`, but `map` is a flat list of point records, so the second index is undefined and `.point` throws | any map of 2 by 2 cells: the first read `map[0][0].point` throws | read cell (col, row) of the column-major list | not executed; high, a point record has no numeric keys | MeshGenerator.MeshReadsAsWrittenFail, MeshGenerator.WireframeAsWritten, MeshGenerator.QuadsAsWritten | MeshGenerator.GenWireframe, MeshGenerator.GenQuads |
