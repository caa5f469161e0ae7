/** The sixteen biomes and their display colours (src/terrain/Biome.ts). */
module Biomes {
  import opened Wrappers

  /** The biome enum, in declaration order. */
  datatype Biome =
    | Ocean | Beach | Desert | TemperateDesert | ScorchedDesert | Grassland
    | Shrubland | Crag | Lake | Marsh | Plains | Forest | RainForest | Taiga
    | Tundra | Snow

  /** The string value each enum member carries: the member's name as
      capitalised words, split at a space for the three compound names. */
  function Label(b: Biome): (r: string)
    ensures |r| >= 4 && 'A' <= r[0] <= 'Z'
    ensures ' ' in r <==> b in {TemperateDesert, ScorchedDesert, RainForest}
  {
    match b
    case Ocean => "Ocean"
    case Beach => "Beach"
    case Desert => "Desert"
    case TemperateDesert => "Temperate Desert"
    case ScorchedDesert => "Scorched Desert"
    case Grassland => "Grassland"
    case Shrubland => "Shrubland"
    case Crag => "Crag"
    case Lake => "Lake"
    case Marsh => "Marsh"
    case Plains => "Plains"
    case Forest => "Forest"
    case RainForest => "Rain Forest"
    case Taiga => "Taiga"
    case Tundra => "Tundra"
    case Snow => "Snow"
  }

  /** The enum member whose string value is `s`, if any: the reverse lookup
      of Label. */
  function ParseLabel(s: string): (r: Option<Biome>)
    ensures r.Some? ==> Label(r.value) == s
  {
    if s == "Ocean" then Some(Ocean)
    else if s == "Beach" then Some(Beach)
    else if s == "Desert" then Some(Desert)
    else if s == "Temperate Desert" then Some(TemperateDesert)
    else if s == "Scorched Desert" then Some(ScorchedDesert)
    else if s == "Grassland" then Some(Grassland)
    else if s == "Shrubland" then Some(Shrubland)
    else if s == "Crag" then Some(Crag)
    else if s == "Lake" then Some(Lake)
    else if s == "Marsh" then Some(Marsh)
    else if s == "Plains" then Some(Plains)
    else if s == "Forest" then Some(Forest)
    else if s == "Rain Forest" then Some(RainForest)
    else if s == "Taiga" then Some(Taiga)
    else if s == "Tundra" then Some(Tundra)
    else if s == "Snow" then Some(Snow)
    else None
  }

  /** Every label parses back to its own biome. */
  lemma {:induction false} ParseLabelRoundTrip(b: Biome)
    ensures ParseLabel(Label(b)) == Some(b)
  {
    match b
    case Ocean =>
    case Beach =>
    case Desert =>
    case TemperateDesert =>
    case ScorchedDesert =>
    case Grassland =>
    case Shrubland =>
    case Crag =>
    case Lake =>
    case Marsh =>
    case Plains =>
    case Forest =>
    case RainForest =>
    case Taiga =>
    case Tundra =>
    case Snow =>
  }

  /** No two biomes share a string value. */
  lemma LabelsDistinct(a: Biome, b: Biome)
    ensures Label(a) == Label(b) <==> a == b
  {
    ParseLabelRoundTrip(a);
    ParseLabelRoundTrip(b);
  }

  /** An RGB triple, each component an integer. */
  datatype Rgb = Rgb(r: int, g: int, b: int)

  const Black := Rgb(0, 0, 0)

  /** True when every component is a byte value. */
  predicate IsByteColor(c: Rgb) {
    0 <= c.r <= 255 && 0 <= c.g <= 255 && 0 <= c.b <= 255
  }

  /** The colour of a point's biome. An absent (undefined) biome matches no
      case of the switch, so its components keep their initial value 0. */
  function BiomeColor(biome: Option<Biome>): (c: Rgb)
    ensures IsByteColor(c)
    ensures c == Black <==> biome.None?
  {
    match biome
    case None => Black
    case Some(Ocean) => Rgb(0, 0, 140)
    case Some(Beach) => Rgb(252, 213, 106)
    case Some(Desert) => Rgb(255, 213, 89)
    case Some(TemperateDesert) => Rgb(186, 135, 68)
    case Some(ScorchedDesert) => Rgb(122, 60, 13)
    case Some(Grassland) => Rgb(100, 142, 4)
    case Some(Shrubland) => Rgb(123, 188, 49)
    case Some(Crag) => Rgb(94, 94, 94)
    case Some(Lake) => Rgb(28, 55, 175)
    case Some(Marsh) => Rgb(14, 79, 79)
    case Some(Plains) => Rgb(127, 160, 43)
    case Some(Forest) => Rgb(25, 117, 22)
    case Some(RainForest) => Rgb(4, 96, 44)
    case Some(Taiga) => Rgb(31, 137, 95)
    case Some(Tundra) => Rgb(19, 221, 188)
    case Some(Snow) => Rgb(215, 224, 222)
  }

  /** The biome a colour belongs to, if any: the reverse lookup of BiomeColor. */
  function ColorBiome(c: Rgb): (r: Option<Biome>)
    ensures r.Some? ==> BiomeColor(r) == c
  {
    if c == Rgb(0, 0, 140) then Some(Ocean)
    else if c == Rgb(252, 213, 106) then Some(Beach)
    else if c == Rgb(255, 213, 89) then Some(Desert)
    else if c == Rgb(186, 135, 68) then Some(TemperateDesert)
    else if c == Rgb(122, 60, 13) then Some(ScorchedDesert)
    else if c == Rgb(100, 142, 4) then Some(Grassland)
    else if c == Rgb(123, 188, 49) then Some(Shrubland)
    else if c == Rgb(94, 94, 94) then Some(Crag)
    else if c == Rgb(28, 55, 175) then Some(Lake)
    else if c == Rgb(14, 79, 79) then Some(Marsh)
    else if c == Rgb(127, 160, 43) then Some(Plains)
    else if c == Rgb(25, 117, 22) then Some(Forest)
    else if c == Rgb(4, 96, 44) then Some(RainForest)
    else if c == Rgb(31, 137, 95) then Some(Taiga)
    else if c == Rgb(19, 221, 188) then Some(Tundra)
    else if c == Rgb(215, 224, 222) then Some(Snow)
    else None
  }

  /** The colour of a point recovers its biome, absent or not. */
  lemma {:induction false} ColorRoundTrip(biome: Option<Biome>)
    ensures ColorBiome(BiomeColor(biome)) == biome
  {
    match biome
    case None =>
    case Some(b) =>
      match b
      case Ocean =>
      case Beach =>
      case Desert =>
      case TemperateDesert =>
      case ScorchedDesert =>
      case Grassland =>
      case Shrubland =>
      case Crag =>
      case Lake =>
      case Marsh =>
      case Plains =>
      case Forest =>
      case RainForest =>
      case Taiga =>
      case Tundra =>
      case Snow =>
  }

  /** Distinct biomes have distinct colours. */
  lemma ColorInjective(a: Option<Biome>, b: Option<Biome>)
    ensures BiomeColor(a) == BiomeColor(b) <==> a == b
  {
    ColorRoundTrip(a);
    ColorRoundTrip(b);
  }
}
