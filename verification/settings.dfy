/** Generator settings and their defaulting (src/util/Settings.ts and
    src/util/PlaneDrawerSettings.ts). `PlaneDrawerSettings extends Settings`
    becomes a record that embeds a Settings value. */
module GeneratorSettings {
  import opened Wrappers

  /** A fully populated Settings object. Colours are hex integers. */
  datatype Settings = Settings(
    seed: string,
    arrWidth: nat,
    arrHeight: nat,
    octaves: int,
    persistence: real,
    gradientStart: nat,
    gradientEnd: nat)

  /** A `Partial<Settings>`: every field may be absent. An absent argument
      object is the value with every field absent. */
  datatype PartialSettings = PartialSettings(
    seed: Option<string>,
    arrWidth: Option<nat>,
    arrHeight: Option<nat>,
    octaves: Option<int>,
    persistence: Option<real>,
    gradientStart: Option<nat>,
    gradientEnd: Option<nat>)

  const NoSettings := PartialSettings(None, None, None, None, None, None, None)

  /** JavaScript `field || default` for a field whose one falsy value is
      `falsy` (0 for numbers, "" for strings, false for booleans). */
  function OrDefault<T(==)>(field: Option<T>, falsy: T, default: T): (r: T)
    ensures field.Some? && field.value != falsy ==> r == field.value
    ensures (field.None? || field.value == falsy) ==> r == default
  {
    if field.Some? && field.value != falsy then field.value else default
  }

  /** `new Settings(other)`. `fallbackSeed` stands for the string of the
      random integer the constructor draws when no usable seed is given. */
  function NewSettings(other: PartialSettings, fallbackSeed: string): (s: Settings)
    ensures other.seed.Some? && other.seed.value != "" ==> s.seed == other.seed.value
    ensures other.seed.None? || other.seed.value == "" ==> s.seed == fallbackSeed
    ensures s.arrWidth == other.arrWidth.GetOr(0)
    ensures s.arrHeight == other.arrHeight.GetOr(0)
    ensures s.octaves != 0
    ensures other.octaves.Some? && other.octaves.value != 0 ==> s.octaves == other.octaves.value
    ensures other.octaves.None? || other.octaves.value == 0 ==> s.octaves == 8
    ensures s.persistence != 0.0
    ensures other.persistence.Some? && other.persistence.value != 0.0 ==> s.persistence == other.persistence.value
    ensures other.persistence.None? || other.persistence.value == 0.0 ==> s.persistence == 0.5
    ensures s.gradientStart == other.gradientStart.GetOr(0xfff)
    ensures s.gradientEnd == other.gradientEnd.GetOr(0)
  {
    Settings(
      OrDefault(other.seed, "", fallbackSeed),
      OrDefault(other.arrWidth, 0, 0),
      OrDefault(other.arrHeight, 0, 0),
      OrDefault(other.octaves, 0, 8),
      OrDefault(other.persistence, 0.0, 0.5),
      other.gradientStart.GetOr(0xfff),
      other.gradientEnd.GetOr(0))
  }

  /** A Settings object seen as the argument of another constructor call. */
  function AsPartial(s: Settings): PartialSettings {
    PartialSettings(Some(s.seed), Some(s.arrWidth), Some(s.arrHeight), Some(s.octaves),
                    Some(s.persistence), Some(s.gradientStart), Some(s.gradientEnd))
  }

  /** Copy-constructing reproduces the settings exactly when none of the
      defaulted fields is falsy (or the seed happens to equal the fallback). */
  lemma CopyPreservesSettings(s: Settings, fallbackSeed: string)
    ensures NewSettings(AsPartial(s), fallbackSeed) == s <==>
      (s.seed != "" || fallbackSeed == "") && s.octaves != 0 && s.persistence != 0.0
  {
  }

  /** Constructing again from constructed settings changes nothing: the
      defaults are never falsy themselves. */
  lemma NewSettingsIdempotent(other: PartialSettings, fallbackSeed: string, fallbackSeed2: string)
    requires fallbackSeed != ""
    ensures NewSettings(AsPartial(NewSettings(other, fallbackSeed)), fallbackSeed2)
            == NewSettings(other, fallbackSeed)
  {
  }

  /** A PlaneDrawerSettings object: the base settings plus the drawing fields. */
  datatype PlaneDrawerSettings = PlaneDrawerSettings(
    base: Settings,
    scaleSize: real,
    heightAmplify: real,
    wireframe: bool,
    autoRotate: bool)

  /** A `Partial<PlaneDrawerSettings>`. */
  datatype PartialPlaneDrawerSettings = PartialPlaneDrawerSettings(
    base: PartialSettings,
    scaleSize: Option<real>,
    heightAmplify: Option<real>,
    wireframe: Option<bool>,
    autoRotate: Option<bool>)

  /** `new PlaneDrawerSettings(settings)`: the numeric fields default on any
      falsy value (`||`), the flags only when undefined (`=== undefined`). */
  function NewPlaneDrawerSettings(settings: PartialPlaneDrawerSettings, fallbackSeed: string): (s: PlaneDrawerSettings)
    ensures s.base == NewSettings(settings.base, fallbackSeed)
    ensures s.scaleSize != 0.0 && s.heightAmplify != 0.0
    ensures settings.scaleSize.None? || settings.scaleSize.value == 0.0 ==> s.scaleSize == 3.0
    ensures settings.scaleSize.Some? && settings.scaleSize.value != 0.0 ==> s.scaleSize == settings.scaleSize.value
    ensures settings.heightAmplify.None? || settings.heightAmplify.value == 0.0 ==> s.heightAmplify == 100.0
    ensures settings.heightAmplify.Some? && settings.heightAmplify.value != 0.0 ==> s.heightAmplify == settings.heightAmplify.value
    ensures s.wireframe <==> settings.wireframe != Some(false)
    ensures s.autoRotate <==> settings.autoRotate != Some(false)
  {
    PlaneDrawerSettings(
      NewSettings(settings.base, fallbackSeed),
      OrDefault(settings.scaleSize, 0.0, 3.0),
      OrDefault(settings.heightAmplify, 0.0, 100.0),
      settings.wireframe.GetOr(true),
      settings.autoRotate.GetOr(true))
  }

  /** The `detailLevel` setter: both dimensions become `val`, nothing else
      changes. */
  function SetDetailLevel(s: PlaneDrawerSettings, val: nat): (r: PlaneDrawerSettings)
    ensures r.base.arrWidth == val && r.base.arrHeight == val
    ensures r == s.(base := r.base)
    ensures r.base == s.base.(arrWidth := r.base.arrWidth, arrHeight := r.base.arrHeight)
  {
    s.(base := s.base.(arrWidth := val, arrHeight := val))
  }

  /** The `detailLevel` getter: the larger of the two dimensions. */
  function DetailLevel(s: PlaneDrawerSettings): (d: nat)
    ensures d >= s.base.arrWidth && d >= s.base.arrHeight
    ensures d == s.base.arrWidth || d == s.base.arrHeight
  {
    var w := s.base.arrWidth;
    var h := s.base.arrHeight;
    if w > h then w else h
  }

  /** Reading the detail level back returns what was set. */
  lemma DetailLevelRoundTrip(s: PlaneDrawerSettings, val: nat)
    ensures DetailLevel(SetDetailLevel(s, val)) == val
  {
  }
}
