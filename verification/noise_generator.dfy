/** Seeded multi-octave value noise (src/util/NoiseGenerator.ts). Grids are
    column-major: `g[x][y]` is column `x`, row `y`. */
module NoiseGenerator {
  import opened Wrappers
  import opened MathUtil
  import opened GeneratorSettings

  type Grid = seq<seq<real>>

  /** A seeded pseudo-random stream: `rng(seed, k)` is the k-th value drawn
      from the stream seeded with `seed`. */
  type Prng = (string, nat) -> real

  /** The stream draws uniform values in [0, 1). */
  ghost predicate IsUnitStream(rng: Prng) {
    forall s, k :: 0.0 <= rng(s, k) < 1.0
  }

  /** `g` has `w` columns of `h` values each. */
  predicate IsGrid(g: Grid, w: nat, h: nat) {
    |g| == w && forall x | 0 <= x < w :: |g[x]| == h
  }

  /** Every value of `g` lies in [0, 1]. */
  predicate InUnit(g: Grid) {
    forall x, y | 0 <= x < |g| && 0 <= y < |g[x]| :: 0.0 <= g[x][y] <= 1.0
  }

  /** `g` is the white noise of `seed`: `w` columns of `h` values, filled
      column by column, so cell (x, y) holds draw number x * h + y. */
  predicate IsWhiteNoise(g: Grid, rng: Prng, seed: string, w: nat, h: nat) {
    IsGrid(g, w, h) &&
    forall x, y | 0 <= x < w && 0 <= y < h :: g[x][y] == rng(seed, x * h + y)
  }

  /** The white noise of a seed and size is unique: the same seed and
      dimensions always give the same grid. */
  lemma WhiteNoiseDeterministic(a: Grid, b: Grid, rng: Prng, seed: string, w: nat, h: nat)
    requires IsWhiteNoise(a, rng, seed, w, h) && IsWhiteNoise(b, rng, seed, w, h)
    ensures a == b
  {
    forall x | 0 <= x < w
      ensures a[x] == b[x]
    {
      assert forall y | 0 <= y < h :: a[x][y] == b[x][y];
    }
  }

  /** White noise drawn from a unit stream lies in [0, 1]. */
  lemma WhiteNoiseInUnit(g: Grid, rng: Prng, seed: string, w: nat, h: nat)
    requires IsUnitStream(rng)
    requires IsWhiteNoise(g, rng, seed, w, h)
    ensures InUnit(g)
  {
    forall x, y | 0 <= x < |g| && 0 <= y < |g[x]|
      ensures 0.0 <= g[x][y] <= 1.0
    {
      assert g[x][y] == rng(seed, x * h + y);
    }
  }

  /** `_generateWhiteNoise`: one draw per cell, column by column. */
  method GenerateWhiteNoise(rng: Prng, seed: string, width: nat, height: nat) returns (noise: Grid)
    ensures IsWhiteNoise(noise, rng, seed, width, height)
  {
    noise := [];
    var draws: nat := 0;
    var x := 0;
    while x < width
      invariant 0 <= x <= width
      invariant draws == x * height
      invariant IsWhiteNoise(noise, rng, seed, x, height)
    {
      var column: seq<real> := [];
      var y := 0;
      while y < height
        invariant 0 <= y <= height
        invariant draws == x * height + y
        invariant |column| == y
        invariant forall j | 0 <= j < y :: column[j] == rng(seed, x * height + j)
      {
        column := column + [rng(seed, draws)];
        draws := draws + 1;
        y := y + 1;
      }
      noise := noise + [column];
      x := x + 1;
    }
  }

  /** A generator: its own copy of the settings and the current white noise. */
  datatype Generator = Generator(settings: Settings, whiteNoise: Grid) {
    function Width(): nat { settings.arrWidth }
    function Height(): nat { settings.arrHeight }

    /** The white noise has the generator's dimensions. */
    predicate Valid() {
      IsGrid(whiteNoise, Width(), Height())
    }
  }

  /** The generator's white noise is the one its seed and size determine. */
  predicate Consistent(rng: Prng, g: Generator) {
    IsWhiteNoise(g.whiteNoise, rng, g.settings.seed, g.Width(), g.Height())
  }

  /** The constructor: copies the settings through `new Settings(...)` and
      draws the white noise. `fallbackSeed` is the random seed that copy uses
      when the given seed is empty. */
  method NewGenerator(rng: Prng, generatorSettings: Settings, fallbackSeed: string) returns (g: Generator)
    ensures g.settings == NewSettings(AsPartial(generatorSettings), fallbackSeed)
    ensures Consistent(rng, g) && g.Valid()
  {
    var settings := NewSettings(AsPartial(generatorSettings), fallbackSeed);
    var noise := GenerateWhiteNoise(rng, settings.seed, settings.arrWidth, settings.arrHeight);
    g := Generator(settings, noise);
  }

  /** The `seed` setter: only the seed changes, and the noise is redrawn. */
  method SetSeed(rng: Prng, g: Generator, val: string) returns (g': Generator)
    ensures g'.settings == g.settings.(seed := val)
    ensures Consistent(rng, g') && g'.Valid()
  {
    var settings := g.settings.(seed := val);
    var noise := GenerateWhiteNoise(rng, val, settings.arrWidth, settings.arrHeight);
    g' := Generator(settings, noise);
  }

  /** The `dimensions` setter: only the size changes, and the noise is redrawn. */
  method SetDimensions(rng: Prng, g: Generator, width: nat, height: nat) returns (g': Generator)
    ensures g'.settings == g.settings.(arrWidth := width, arrHeight := height)
    ensures Consistent(rng, g') && g'.Valid()
  {
    var settings := g.settings.(arrWidth := width, arrHeight := height);
    var noise := GenerateWhiteNoise(rng, settings.seed, width, height);
    g' := Generator(settings, noise);
  }

  /** `changeSettings`: takes the settings as given (no copy, no defaulting)
      and redraws the noise. */
  method ChangeSettings(rng: Prng, g: Generator, settings: Settings) returns (g': Generator)
    ensures g'.settings == settings
    ensures Consistent(rng, g') && g'.Valid()
  {
    var noise := GenerateWhiteNoise(rng, settings.seed, settings.arrWidth, settings.arrHeight);
    g' := Generator(settings, noise);
  }

  /** Two generators with the same seed and size hold the same white noise. */
  lemma SameSeedSameNoise(rng: Prng, g1: Generator, g2: Generator)
    requires Consistent(rng, g1) && Consistent(rng, g2)
    requires g1.settings.seed == g2.settings.seed
    requires g1.Width() == g2.Width() && g1.Height() == g2.Height()
    ensures g1.whiteNoise == g2.whiteNoise
  {
    WhiteNoiseDeterministic(g1.whiteNoise, g2.whiteNoise, rng, g1.settings.seed, g1.Width(), g1.Height());
  }

  /** The first sample index of the period containing `i`. */
  function Anchor(i: nat, period: nat): (a: nat)
    requires period >= 1
    ensures a <= i && i - a < period
  {
    (i / period) * period
  }

  /** The next anchor, wrapped around the grid size. */
  function NextAnchor(anchor: nat, period: nat, size: nat): (a: nat)
    requires size >= 1
    ensures a < size
  {
    (anchor + period) % size
  }

  /** How far `i` lies from its anchor, as a fraction of the period. */
  function BlendFactor(i: nat, anchor: nat, period: nat): (b: real)
    requires period >= 1 && anchor <= i < anchor + period
    ensures 0.0 <= b < 1.0
  {
    var frequency := 1.0 / period as real;
    var d := (i - anchor) as real;
    assert d * frequency == d / period as real;
    d * frequency
  }

  /** Every white-noise read of the smoothing step is in bounds and both
      blend factors lie in [0, 1). */
  lemma SmoothingIndicesInBounds(x: nat, y: nat, w: nat, h: nat, period: nat)
    requires x < w && y < h && period >= 1
    ensures Anchor(x, period) <= x < w && NextAnchor(Anchor(x, period), period, w) < w
    ensures Anchor(y, period) <= y < h && NextAnchor(Anchor(y, period), period, h) < h
    ensures 0.0 <= BlendFactor(x, Anchor(x, period), period) < 1.0
    ensures 0.0 <= BlendFactor(y, Anchor(y, period), period) < 1.0
  {
  }

  /** One smoothed cell: cosine interpolation between the four anchor
      samples, horizontally and then vertically. */
  function SmoothCell(cos: real -> real, white: Grid, w: nat, h: nat, period: nat, x: nat, y: nat): (r: real)
    requires IsCosine(cos) && IsGrid(white, w, h)
    requires period >= 1 && x < w && y < h
    ensures period == 1 ==> r == white[x][y]
    ensures InUnit(white) ==> 0.0 <= r <= 1.0
  {
    SmoothingIndicesInBounds(x, y, w, h, period);
    var hor1 := Anchor(x, period);
    var hor2 := NextAnchor(hor1, period, w);
    var horizontalBlend := BlendFactor(x, hor1, period);
    var vert1 := Anchor(y, period);
    var vert2 := NextAnchor(vert1, period, h);
    var verticalBlend := BlendFactor(y, vert1, period);
    var top := Interpolate(cos, white[hor1][vert1], white[hor2][vert1], horizontalBlend);
    var bottom := Interpolate(cos, white[hor1][vert2], white[hor2][vert2], horizontalBlend);
    Interpolate(cos, top, bottom, verticalBlend)
  }

  /** `_generateSmoothNoise(octave)`: the white noise smoothed with period
      2^octave. */
  function SmoothNoise(cos: real -> real, g: Generator, octave: nat): (r: Grid)
    requires IsCosine(cos) && g.Valid()
    ensures IsGrid(r, g.Width(), g.Height())
  {
    var w := g.Width();
    var h := g.Height();
    var period := Pow2(octave);
    seq(w, x requires 0 <= x < w =>
      seq(h, y requires 0 <= y < h => SmoothCell(cos, g.whiteNoise, w, h, period, x, y)))
  }

  /** Octave 0 has period 1, so its smooth noise is the white noise itself. */
  lemma SmoothOctaveZero(cos: real -> real, g: Generator)
    requires IsCosine(cos) && g.Valid()
    ensures SmoothNoise(cos, g, 0) == g.whiteNoise
  {
    var s := SmoothNoise(cos, g, 0);
    forall x | 0 <= x < g.Width()
      ensures s[x] == g.whiteNoise[x]
    {
      forall y | 0 <= y < g.Height()
        ensures s[x][y] == g.whiteNoise[x][y]
      {
        assert Anchor(x, 1) == x && Anchor(y, 1) == y;
        assert BlendFactor(x, x, 1) == 0.0 && BlendFactor(y, y, 1) == 0.0;
      }
    }
  }

  /** Smoothing keeps values in [0, 1]: each cell is a convex combination of
      white-noise samples. */
  lemma SmoothNoiseInUnit(cos: real -> real, g: Generator, octave: nat)
    requires IsCosine(cos) && g.Valid() && InUnit(g.whiteNoise)
    ensures InUnit(SmoothNoise(cos, g, octave))
  {
    var s := SmoothNoise(cos, g, octave);
    var w, h := g.Width(), g.Height();
    var period := Pow2(octave);
    forall x, y | 0 <= x < |s| && 0 <= y < |s[x]|
      ensures 0.0 <= s[x][y] <= 1.0
    {
      var white := g.whiteNoise;
      var hor1 := Anchor(x, period);
      var hor2 := NextAnchor(hor1, period, w);
      var vert1 := Anchor(y, period);
      var vert2 := NextAnchor(vert1, period, h);
      assert 0.0 <= white[hor1][vert1] <= 1.0 && 0.0 <= white[hor2][vert1] <= 1.0;
      assert 0.0 <= white[hor1][vert2] <= 1.0 && 0.0 <= white[hor2][vert2] <= 1.0;
    }
  }

  /** The smooth noise of octaves 0 .. n-1. */
  function Octaves(cos: real -> real, g: Generator, n: nat): (octs: seq<Grid>)
    requires IsCosine(cos) && g.Valid()
    ensures AllGrids(octs, g.Width(), g.Height())
  {
    seq(n, k requires 0 <= k < n => SmoothNoise(cos, g, k))
  }

  predicate AllGrids(octs: seq<Grid>, w: nat, h: nat) {
    forall k | 0 <= k < |octs| :: IsGrid(octs[k], w, h)
  }

  predicate AllInUnit(octs: seq<Grid>) {
    forall k | 0 <= k < |octs| :: InUnit(octs[k])
  }

  /** Sum of p^1 .. p^m: the total amplitude after m octaves. */
  function Geometric(p: real, m: nat): real {
    if m == 0 then 0.0 else Geometric(p, m - 1) + Pow(p, m)
  }

  /** The weighted sum of cell (x, y) over octaves k .. n-1, where octave j of
      n carries the weight p^(n - j). */
  function Blended(octs: seq<Grid>, w: nat, h: nat, p: real, x: nat, y: nat, k: nat): real
    requires AllGrids(octs, w, h) && x < w && y < h && k <= |octs|
    decreases |octs| - k
  {
    if k == |octs| then 0.0
    else octs[k][x][y] * Pow(p, |octs| - k) + Blended(octs, w, h, p, x, y, k + 1)
  }

  /** With positive persistence and octave values in [0, 1], the weighted sum
      over octaves k .. n-1 lies between 0 and the sum of their weights. */
  lemma {:induction false} BlendedBounds(octs: seq<Grid>, w: nat, h: nat, p: real, x: nat, y: nat, k: nat)
    requires AllGrids(octs, w, h) && x < w && y < h && k <= |octs|
    requires p > 0.0
    requires AllInUnit(octs)
    ensures 0.0 <= Blended(octs, w, h, p, x, y, k) <= Geometric(p, |octs| - k)
    decreases |octs| - k
  {
    if k < |octs| {
      BlendedBounds(octs, w, h, p, x, y, k + 1);
      var c := octs[k][x][y];
      var a := Pow(p, |octs| - k);
      assert 0.0 <= c <= 1.0;
      PowPositive(p, |octs| - k);
      MulNonNegative(c, a);
      MulNonNegative(1.0 - c, a);
    }
  }

  /** With positive persistence the total amplitude of n >= 1 octaves is
      positive. */
  lemma {:induction false} GeometricPositive(p: real, m: nat)
    requires p > 0.0 && m >= 1
    ensures Geometric(p, m) > 0.0
  {
    PowPositive(p, m);
    if m > 1 {
      GeometricPositive(p, m - 1);
    }
  }

  /** Why `generatePerlinNoise` can fail. */
  datatype NoiseError =
    | ReadOfUndefined   // no octave created the output columns, yet the normalisation loop reads them
    | NonFiniteResult   // the total amplitude is 0, so normalising divides by zero

  /** A `w` by `h` grid of zeros. */
  function Zeros(w: nat, h: nat): (g: Grid)
    ensures IsGrid(g, w, h)
    ensures forall x, y | 0 <= x < w && 0 <= y < h :: g[x][y] == 0.0
  {
    seq(w, _ => seq(h, _ => 0.0))
  }

  /** One pass of the blending loop: every cell gains the octave's value
      times the current amplitude. */
  method AddOctave(acc: Grid, octave: Grid, amplitude: real, w: nat, h: nat) returns (acc': Grid)
    requires IsGrid(acc, w, h) && IsGrid(octave, w, h)
    ensures IsGrid(acc', w, h)
    ensures forall x, y | 0 <= x < w && 0 <= y < h :: acc'[x][y] == acc[x][y] + octave[x][y] * amplitude
  {
    acc' := acc;
    var x := 0;
    while x < w
      invariant 0 <= x <= w
      invariant IsGrid(acc', w, h)
      invariant forall i, j | 0 <= i < w && 0 <= j < h ::
        acc'[i][j] == (if i < x then acc[i][j] + octave[i][j] * amplitude else acc[i][j])
    {
      var y := 0;
      while y < h
        invariant 0 <= y <= h
        invariant IsGrid(acc', w, h)
        invariant forall i, j | 0 <= i < w && 0 <= j < h ::
          acc'[i][j] == (if i < x || (i == x && j < y) then acc[i][j] + octave[i][j] * amplitude else acc[i][j])
      {
        acc' := acc'[x := acc'[x][y := acc'[x][y] + octave[x][y] * amplitude]];
        y := y + 1;
      }
      x := x + 1;
    }
  }

  /** The blending loop of `generatePerlinNoise`: octaves are visited from
      n-1 down to 0 and the amplitude is multiplied by the persistence before
      each, so octave k gets weight p^(n-k) and the total amplitude is
      p^1 + ... + p^n. */
  method BlendOctaves(smooth: seq<Grid>, w: nat, h: nat, p: real) returns (acc: Grid, total: real)
    requires AllGrids(smooth, w, h)
    ensures total == Geometric(p, |smooth|)
    ensures IsGrid(acc, w, h)
    ensures forall x, y | 0 <= x < w && 0 <= y < h :: acc[x][y] == Blended(smooth, w, h, p, x, y, 0)
  {
    var n := |smooth|;
    acc := Zeros(w, h);
    var amplitude := 1.0;
    total := 0.0;
    var octave: int := n - 1;
    while octave >= 0
      invariant -1 <= octave <= n - 1
      invariant amplitude == Pow(p, n - 1 - octave)
      invariant total == Geometric(p, n - 1 - octave)
      invariant IsGrid(acc, w, h)
      invariant forall x, y | 0 <= x < w && 0 <= y < h ::
        acc[x][y] == Blended(smooth, w, h, p, x, y, octave + 1)
    {
      amplitude := amplitude * p;
      total := total + amplitude;
      var next := AddOctave(acc, smooth[octave], amplitude, w, h);
      forall x, y | 0 <= x < w && 0 <= y < h
        ensures next[x][y] == Blended(smooth, w, h, p, x, y, octave)
      {
        assert amplitude == Pow(p, n - octave);
      }
      acc := next;
      octave := octave - 1;
    }
  }

  /** The smoothing loop of `generatePerlinNoise`: octaves 0 .. n-1 in order. */
  method SmoothAllOctaves(cos: real -> real, g: Generator, n: nat) returns (smooth: seq<Grid>)
    requires IsCosine(cos) && g.Valid()
    ensures smooth == Octaves(cos, g, n)
  {
    smooth := [];
    var i := 0;
    while i < n
      invariant 0 <= i <= n
      invariant |smooth| == i
      invariant forall k | 0 <= k < i :: smooth[k] == SmoothNoise(cos, g, k)
    {
      smooth := smooth + [SmoothNoise(cos, g, i)];
      i := i + 1;
    }
  }

  /** The normalisation loop: every cell divided by the total amplitude. */
  function Normalize(acc: Grid, w: nat, h: nat, total: real): (r: Grid)
    requires IsGrid(acc, w, h)
    requires w > 0 && h > 0 ==> total != 0.0
    ensures IsGrid(r, w, h)
    ensures forall x, y | 0 <= x < w && 0 <= y < h :: r[x][y] * total == acc[x][y]
  {
    seq(w, x requires 0 <= x < w => seq(h, y requires 0 <= y < h => acc[x][y] / total))
  }

  /** `r` holds, cell by cell, the weighted octave sum divided by the total
      amplitude p^1 + ... + p^n. */
  predicate IsNormalizedBlend(octs: seq<Grid>, w: nat, h: nat, p: real, r: Grid)
    requires AllGrids(octs, w, h)
  {
    && IsGrid(r, w, h)
    && forall x, y | 0 <= x < w && 0 <= y < h ::
         r[x][y] * Geometric(p, |octs|) == Blended(octs, w, h, p, x, y, 0)
  }

  /** The value of a successful `generatePerlinNoise(n)`. */
  ghost predicate IsPerlinNoise(cos: real -> real, g: Generator, n: nat, r: Grid)
    requires IsCosine(cos) && g.Valid()
  {
    IsNormalizedBlend(Octaves(cos, g, n), g.Width(), g.Height(), g.settings.persistence, r)
  }

  /** With positive persistence and white noise in [0, 1], Perlin noise lies
      in [0, 1]: each cell is a weighted mean of smoothed values in [0, 1]. */
  lemma PerlinNoiseInUnit(cos: real -> real, g: Generator, n: nat, r: Grid)
    requires IsCosine(cos) && g.Valid() && n >= 1
    requires g.settings.persistence > 0.0 && InUnit(g.whiteNoise)
    requires IsPerlinNoise(cos, g, n, r)
    ensures InUnit(r)
  {
    var octs := Octaves(cos, g, n);
    forall k | 0 <= k < n
      ensures InUnit(octs[k])
    {
      SmoothNoiseInUnit(cos, g, k);
    }
    assert AllInUnit(octs);
    WeightedMeanInUnit(octs, g.Width(), g.Height(), g.settings.persistence, r);
  }

  /** A grid whose cells are the normalised weighted sums of octaves in
      [0, 1] lies in [0, 1]. */
  lemma WeightedMeanInUnit(octs: seq<Grid>, w: nat, h: nat, p: real, r: Grid)
    requires AllGrids(octs, w, h) && |octs| >= 1 && p > 0.0
    requires AllInUnit(octs)
    requires IsNormalizedBlend(octs, w, h, p, r)
    ensures InUnit(r)
  {
    GeometricPositive(p, |octs|);
    forall x, y | 0 <= x < |r| && 0 <= y < |r[x]|
      ensures 0.0 <= r[x][y] <= 1.0
    {
      BlendedBounds(octs, w, h, p, x, y, 0);
      UnitQuotient(r[x][y], Geometric(p, |octs|), Blended(octs, w, h, p, x, y, 0));
    }
  }

  /** A quotient s / t with 0 <= s <= t lies in [0, 1]. */
  lemma UnitQuotient(v: real, t: real, s: real)
    requires t > 0.0 && 0.0 <= s <= t && v * t == s
    ensures 0.0 <= v <= 1.0
  {
  }

  /** Blending and normalisation of `generatePerlinNoise` for n >= 1 smoothed
      octaves. */
  method BlendAndNormalize(smooth: seq<Grid>, w: nat, h: nat, p: real) returns (r: Result<Grid, NoiseError>)
    requires AllGrids(smooth, w, h) && |smooth| >= 1
    ensures r.Err? <==> Geometric(p, |smooth|) == 0.0 && w > 0 && h > 0
    ensures r.Err? ==> r.error == NonFiniteResult
    ensures r.Ok? ==> IsNormalizedBlend(smooth, w, h, p, r.value)
  {
    var acc, total := BlendOctaves(smooth, w, h, p);
    if total == 0.0 && w > 0 && h > 0 {
      return Err(NonFiniteResult);
    }
    var result := Normalize(acc, w, h, total);
    forall x, y | 0 <= x < w && 0 <= y < h
      ensures result[x][y] * total == Blended(smooth, w, h, p, x, y, 0)
    {
      assert result[x][y] * total == acc[x][y];
    }
    return Ok(result);
  }

  /** `generatePerlinNoise(octaveCount)`: smooth every octave, blend them,
      then divide by the total amplitude. With no octave the output columns
      are never created and reading them throws; with a total amplitude of 0
      the division yields non-finite values. */
  method GeneratePerlinNoise(cos: real -> real, g: Generator, octaveCount: int) returns (r: Result<Grid, NoiseError>)
    requires IsCosine(cos) && g.Valid()
    ensures octaveCount <= 0 ==>
      r == (if g.Width() > 0 && g.Height() > 0 then Err(ReadOfUndefined) else Ok([]))
    ensures octaveCount > 0 ==>
      && (r.Err? <==> Geometric(g.settings.persistence, octaveCount) == 0.0 && g.Width() > 0 && g.Height() > 0)
      && (r.Err? ==> r.error == NonFiniteResult)
      && (r.Ok? ==> IsPerlinNoise(cos, g, octaveCount, r.value))
    ensures octaveCount > 0 && g.settings.persistence > 0.0 && InUnit(g.whiteNoise) ==>
      r.Ok? && IsGrid(r.value, g.Width(), g.Height()) && InUnit(r.value)
  {
    var w, h := g.Width(), g.Height();
    if octaveCount <= 0 {
      if w > 0 && h > 0 {
        return Err(ReadOfUndefined);
      }
      return Ok([]);
    }
    var p := g.settings.persistence;
    var smooth := SmoothAllOctaves(cos, g, octaveCount);
    r := BlendAndNormalize(smooth, w, h, p);
    if p > 0.0 {
      GeometricPositive(p, octaveCount);
      if r.Ok? && InUnit(g.whiteNoise) {
        PerlinNoiseInUnit(cos, g, octaveCount, r.value);
      }
    }
  }
}
