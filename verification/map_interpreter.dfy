/** Classification of an (elevation, temperature, moisture) triple into a
    biome (src/util/MapInterpreter.ts). */
module MapInterpreter {
  import opened Biomes

  /** Elevation bands, lowest first. */
  datatype Elevation = SeaLevel | Low | Valley | Average | Hill | Mountain | Peak

  /** Temperature bands, coldest first. */
  datatype Temperature = Freezing | Cold | Average | Warm | Hot | Scorched

  /** Moisture bands, driest first. */
  datatype Moisture = Bare | Dry | Average | Moist | Humid | Wet

  // Elevation cut-offs
  const SeaLevelCut: real := 0.17
  const LowLevelCut: real := 0.25
  const ValleyLevelCut: real := 0.4
  const AverageLevelCut: real := 0.55
  const HillLevelCut: real := 0.7
  const MountainLevelCut: real := 0.9

  // Moisture cut-offs
  const BareCut: real := 0.15
  const DryCut: real := 0.3
  const TemperateCut: real := 0.55
  const MoistCut: real := 0.7
  const HumidCut: real := 0.85

  // Temperature cut-offs
  const FreezingCut: real := 0.1
  const ColdCut: real := 0.4
  const AverageCut: real := 0.65
  const WarmCut: real := 0.75
  const HotCut: real := 0.9

  const ElevationCuts: seq<real> :=
    [SeaLevelCut, LowLevelCut, ValleyLevelCut, AverageLevelCut, HillLevelCut, MountainLevelCut]
  const TemperatureCuts: seq<real> := [FreezingCut, ColdCut, AverageCut, WarmCut, HotCut]
  const MoistureCuts: seq<real> := [BareCut, DryCut, TemperateCut, MoistCut, HumidCut]

  /** Cut-offs listed in strictly increasing order. */
  predicate Increasing(cuts: seq<real>) {
    forall i, j | 0 <= i < j < |cuts| :: cuts[i] < cuts[j]
  }

  /** Band `i` of the cut-offs `cuts` is the half-open interval from cut
      `i - 1` (inclusive; unbounded for the first band) to cut `i`
      (exclusive; unbounded for the last band). */
  predicate InBand(cuts: seq<real>, i: nat, v: real) {
    && i <= |cuts|
    && (i == 0 || cuts[i - 1] <= v)
    && (i == |cuts| || v < cuts[i])
  }

  function ElevationRank(e: Elevation): nat {
    match e
    case SeaLevel => 0
    case Low => 1
    case Valley => 2
    case Average => 3
    case Hill => 4
    case Mountain => 5
    case Peak => 6
  }

  function TemperatureRank(t: Temperature): nat {
    match t
    case Freezing => 0
    case Cold => 1
    case Average => 2
    case Warm => 3
    case Hot => 4
    case Scorched => 5
  }

  function MoistureRank(m: Moisture): nat {
    match m
    case Bare => 0
    case Dry => 1
    case Average => 2
    case Moist => 3
    case Humid => 4
    case Wet => 5
  }

  /** The elevation band of `e`: its rank is the band of the cut-offs that
      contains `e`, so a value at a cut-off belongs to the higher band. */
  function GetElevation(e: real): (r: Elevation)
    ensures InBand(ElevationCuts, ElevationRank(r), e)
  {
    if e < SeaLevelCut then SeaLevel
    else if e < LowLevelCut then Low
    else if e < ValleyLevelCut then Valley
    else if e < AverageLevelCut then Elevation.Average
    else if e < HillLevelCut then Hill
    else if e < MountainLevelCut then Mountain
    else Peak
  }

  /** The temperature band of `t`. */
  function GetTemperature(t: real): (r: Temperature)
    ensures InBand(TemperatureCuts, TemperatureRank(r), t)
  {
    if t < FreezingCut then Freezing
    else if t < ColdCut then Cold
    else if t < AverageCut then Temperature.Average
    else if t < WarmCut then Warm
    else if t < HotCut then Hot
    else Scorched
  }

  /** The moisture band of `m`. */
  function GetMoisture(m: real): (r: Moisture)
    ensures InBand(MoistureCuts, MoistureRank(r), m)
  {
    if m < BareCut then Bare
    else if m < DryCut then Dry
    else if m < TemperateCut then Moisture.Average
    else if m < MoistCut then Moist
    else if m < HumidCut then Humid
    else Wet
  }

  /** Over increasing cut-offs, a larger value never falls in a lower band. */
  lemma BandMonotone(cuts: seq<real>, i: nat, j: nat, v: real, w: real)
    requires Increasing(cuts)
    requires InBand(cuts, i, v) && InBand(cuts, j, w)
    requires v <= w
    ensures i <= j
  {
  }

  /** Over increasing cut-offs, every value lies in exactly one band. */
  lemma BandUnique(cuts: seq<real>, i: nat, j: nat, v: real)
    requires Increasing(cuts)
    requires InBand(cuts, i, v) && InBand(cuts, j, v)
    ensures i == j
  {
    BandMonotone(cuts, i, j, v, v);
    BandMonotone(cuts, j, i, v, v);
  }

  /** GetElevation picks band `b` exactly when `e` lies in b's interval. */
  lemma GetElevationIff(e: real, b: Elevation)
    ensures GetElevation(e) == b <==> InBand(ElevationCuts, ElevationRank(b), e)
  {
    if InBand(ElevationCuts, ElevationRank(b), e) {
      BandUnique(ElevationCuts, ElevationRank(b), ElevationRank(GetElevation(e)), e);
    }
  }

  /** GetTemperature picks band `b` exactly when `t` lies in b's interval. */
  lemma GetTemperatureIff(t: real, b: Temperature)
    ensures GetTemperature(t) == b <==> InBand(TemperatureCuts, TemperatureRank(b), t)
  {
    if InBand(TemperatureCuts, TemperatureRank(b), t) {
      BandUnique(TemperatureCuts, TemperatureRank(b), TemperatureRank(GetTemperature(t)), t);
    }
  }

  /** GetMoisture picks band `b` exactly when `m` lies in b's interval. */
  lemma GetMoistureIff(m: real, b: Moisture)
    ensures GetMoisture(m) == b <==> InBand(MoistureCuts, MoistureRank(b), m)
  {
    if InBand(MoistureCuts, MoistureRank(b), m) {
      BandUnique(MoistureCuts, MoistureRank(b), MoistureRank(GetMoisture(m)), m);
    }
  }

  /** Each banding function is monotone non-decreasing in its input. */
  lemma BandingMonotone(v: real, w: real)
    requires v <= w
    ensures ElevationRank(GetElevation(v)) <= ElevationRank(GetElevation(w))
    ensures TemperatureRank(GetTemperature(v)) <= TemperatureRank(GetTemperature(w))
    ensures MoistureRank(GetMoisture(v)) <= MoistureRank(GetMoisture(w))
  {
    BandMonotone(ElevationCuts, ElevationRank(GetElevation(v)), ElevationRank(GetElevation(w)), v, w);
    BandMonotone(TemperatureCuts, TemperatureRank(GetTemperature(v)), TemperatureRank(GetTemperature(w)), v, w);
    BandMonotone(MoistureCuts, MoistureRank(GetMoisture(v)), MoistureRank(GetMoisture(w)), v, w);
  }

  /** The nested decision table of the source, on bands. Each inner `switch`
      is a chain of first-match tests in source order, so a second
      `case Moisture.Average` label is kept as a branch that never fires. */
  function BiomeForBands(e: Elevation, t: Temperature, m: Moisture): (r: Biome)
    ensures r in ReachableBiomes
    ensures r == Ocean <==> e == SeaLevel
    ensures e == Peak && t in {Freezing, Cold, Temperature.Average} ==> r == Snow
  {
    match e
    case SeaLevel => Ocean
    case Low =>
      if t == Freezing || t == Cold then
        (if m == Bare || m == Dry then Tundra else Beach)
      else Beach
    case Valley =>
      if t == Freezing then Tundra
      else if t == Cold then
        (if m == Bare || m == Dry then Tundra else Taiga)
      else if t == Temperature.Average then
        (if m == Bare then Desert
         else if m == Dry then Plains
         else if m == Moisture.Average then Grassland
         else if m == Moisture.Average then Forest
         else RainForest)
      else if t == Warm then
        (if m == Bare || m == Dry then Desert
         else if m == Moisture.Average || m == Moisture.Average then Forest
         else RainForest)
      else if t == Hot then
        (if m == Bare then ScorchedDesert
         else if m == Dry then Desert
         else if m == Moisture.Average then TemperateDesert
         else if m == Moisture.Average then Shrubland
         else Marsh)
      else
        (if m == Bare || m == Dry then ScorchedDesert else TemperateDesert)
    case Average =>
      if t == Freezing then Tundra
      else if t == Cold then
        (if m == Bare || m == Dry then Tundra
         else if m == Moisture.Average then Taiga
         else Snow)
      else if t == Temperature.Average || t == Warm then
        (if m == Bare then Desert
         else if m == Dry then Plains
         else if m == Moisture.Average then Grassland
         else if m == Moisture.Average then Shrubland
         else Marsh)
      else if t == Hot then
        (if m == Bare then ScorchedDesert
         else if m == Dry then Desert
         else if m == Moisture.Average then Grassland
         else if m == Moisture.Average then Shrubland
         else Marsh)
      else
        (if m == Bare || m == Dry then ScorchedDesert else TemperateDesert)
    case Hill =>
      if t == Freezing then
        (if m == Bare || m == Dry || m == Moisture.Average then Tundra else Snow)
      else if t == Cold then
        (if m == Bare || m == Dry then Taiga else Snow)
      else if t == Temperature.Average then
        (if m == Bare || m == Dry then Grassland else Forest)
      else if t == Warm then
        (if m == Bare || m == Dry then Desert
         else if m == Moisture.Average || m == Moisture.Average then Forest
         else RainForest)
      else if t == Hot then
        (if m == Bare || m == Dry then ScorchedDesert
         else if m == Moisture.Average then Forest
         else RainForest)
      else
        (if m == Bare || m == Dry then Crag else Forest)
    case Mountain =>
      if t == Freezing then
        (if m == Bare || m == Dry then Tundra else Snow)
      else if t == Cold then
        (if m == Bare || m == Dry then Taiga else Snow)
      else
        (if m == Bare || m == Dry then Crag else Forest)
    case Peak =>
      if t == Freezing || t == Cold || t == Temperature.Average then Snow
      else
        (if m == Bare || m == Dry then Crag else Forest)
  }

  /** `getBiome`: the three values banded, then classified by the table.
      Every real triple gets a biome, never Lake or Shrubland, and Ocean
      exactly below the sea-level cut-off. */
  function GetBiome(elevation: real, temperature: real, moisture: real): (r: Biome)
    ensures r in ReachableBiomes && r != Lake && r != Shrubland
    ensures r == Ocean <==> elevation < SeaLevelCut
  {
    BiomeForBands(GetElevation(elevation), GetTemperature(temperature), GetMoisture(moisture))
  }

  /** The biomes the decision table can produce. */
  const ReachableBiomes: set<Biome> :=
    {Ocean, Beach, Desert, TemperateDesert, ScorchedDesert, Grassland, Crag,
     Marsh, Plains, Forest, RainForest, Taiga, Tundra, Snow}

  /** Every real triple, in [0,1] or not, is classified, and the result is
      never Lake or Shrubland: every Shrubland sits behind an earlier
      `Moisture.Average` label and no branch returns Lake. */
  lemma GetBiomeNeverLakeOrShrubland(e: real, t: real, m: real)
    ensures GetBiome(e, t, m) in ReachableBiomes
    ensures GetBiome(e, t, m) != Lake && GetBiome(e, t, m) != Shrubland
  {
  }

  /** Every biome other than Lake and Shrubland is the classification of some
      triple in [0,1]^3, so ReachableBiomes is exactly the image of GetBiome. */
  lemma GetBiomeImage(b: Biome)
    ensures b in ReachableBiomes <==>
      exists e, t, m :: 0.0 <= e <= 1.0 && 0.0 <= t <= 1.0 && 0.0 <= m <= 1.0 && GetBiome(e, t, m) == b
  {
    if b in ReachableBiomes {
      var w :=
        match b
        case Ocean => (0.0, 0.0, 0.0)
        case Beach => (0.2, 0.5, 0.0)
        case Tundra => (0.2, 0.0, 0.0)
        case Taiga => (0.3, 0.2, 0.5)
        case Desert => (0.3, 0.5, 0.0)
        case Plains => (0.3, 0.5, 0.2)
        case Grassland => (0.3, 0.5, 0.4)
        case RainForest => (0.3, 0.5, 0.6)
        case Forest => (0.3, 0.7, 0.4)
        case ScorchedDesert => (0.3, 0.8, 0.0)
        case TemperateDesert => (0.3, 0.8, 0.4)
        case Marsh => (0.3, 0.8, 0.6)
        case Snow => (0.95, 0.0, 0.0)
        case Crag => (0.95, 0.8, 0.0)
        case _ => (0.0, 0.0, 0.0);
      assert GetBiome(w.0, w.1, w.2) == b;
    } else {
      GetBiomeNeverLakeOrShrublandAll();
    }
  }

  lemma GetBiomeNeverLakeOrShrublandAll()
    ensures forall e, t, m :: GetBiome(e, t, m) in ReachableBiomes
  {
    forall e, t, m
      ensures GetBiome(e, t, m) in ReachableBiomes
    {
      GetBiomeNeverLakeOrShrubland(e, t, m);
    }
  }

  /** Below the sea-level cut-off every point is Ocean. */
  lemma SeaLevelIsOcean(e: real, t: real, m: real)
    requires e < SeaLevelCut
    ensures GetBiome(e, t, m) == Ocean
  {
  }

  /** A value exactly at a cut-off takes the higher band. */
  lemma CutOffsAreExclusive()
    ensures GetElevation(SeaLevelCut) == Low
    ensures GetTemperature(FreezingCut) == Cold
    ensures GetMoisture(BareCut) == Dry
    ensures GetBiome(SeaLevelCut, 0.0, 0.0) == Tundra
  {
  }

  /** On low ground the result is Tundra exactly when it is cold and dry, and
      Beach otherwise. */
  lemma LowGroundTundraOrBeach(e: real, t: real, m: real)
    requires SeaLevelCut <= e < LowLevelCut
    ensures GetBiome(e, t, m) == Tundra <==> t < ColdCut && m < DryCut
    ensures GetBiome(e, t, m) != Tundra ==> GetBiome(e, t, m) == Beach
  {
  }

  /** In a valley at average temperature, moderately moist ground is rain
      forest: the Forest branch behind the duplicate label never fires. */
  lemma ValleyMoistIsRainForest(e: real, t: real, m: real)
    requires ValleyLevelCut > e >= LowLevelCut
    requires ColdCut <= t < AverageCut
    requires TemperateCut <= m < MoistCut
    ensures GetBiome(e, t, m) == RainForest
  {
  }

  /** On peaks anything up to average temperature is Snow, whatever the
      moisture. */
  lemma PeakIsSnowUnlessWarm(e: real, t: real, m: real)
    requires e >= MountainLevelCut
    requires t < AverageCut
    ensures GetBiome(e, t, m) == Snow
  {
  }
}
