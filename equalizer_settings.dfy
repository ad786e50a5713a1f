/**
 * The equalizer's tuning knobs: stored settings merged field by field with the defaults, and the
 * updates the hook offers. Numbers are exact reals.
 */
module EqualizerSettings {
  import opened Wrappers
  import opened Json

  datatype Vec3 = Vec3(x: real, y: real, z: real)

  datatype Settings = Settings(
    amplitude: real,
    cubeSpacing: real,
    cubeSideLength: real,
    gridCols: real,
    gridRows: real,
    cameraFov: real,
    cameraPosition: Vec3)

  const Defaults := Settings(1.0, 30.0, 0.03, 160.0, 160.0, 135.0, Vec3(22.0, 22.0, 11.0))

  const MaxAmplitude: real := 50.0

  datatype Key = Amplitude | CubeSpacing | CubeSideLength | GridCols | GridRows | CameraFov | CameraPosition

  datatype Value = Number(n: real) | Position(p: Vec3)

  /** The JSON member name of each setting. */
  function KeyName(k: Key): string
  {
    match k
    case Amplitude => "amplitude"
    case CubeSpacing => "cubeSpacing"
    case CubeSideLength => "cubeSideLength"
    case GridCols => "gridCols"
    case GridRows => "gridRows"
    case CameraFov => "cameraFov"
    case CameraPosition => "cameraPosition"
  }

  /** The value a key holds in `s`. */
  function Get(s: Settings, k: Key): Value
  {
    match k
    case Amplitude => Number(s.amplitude)
    case CubeSpacing => Number(s.cubeSpacing)
    case CubeSideLength => Number(s.cubeSideLength)
    case GridCols => Number(s.gridCols)
    case GridRows => Number(s.gridRows)
    case CameraFov => Number(s.cameraFov)
    case CameraPosition => Position(s.cameraPosition)
  }

  /** The type the settings record declares for each key. */
  predicate Fits(k: Key, v: Value)
  {
    if k == CameraPosition then v.Position? else v.Number?
  }

  /** A stored scalar is kept when it is a number. */
  function NumberOr(parsed: Json, k: Key, default: real): real
  {
    match Member(parsed, KeyName(k))
    case Some(JNumber(n)) => n
    case _ => default
  }

  /** A stored camera position is kept when it is an array of exactly three numbers. */
  function PositionOr(parsed: Json, default: Vec3): Vec3
  {
    match Member(parsed, KeyName(CameraPosition))
    case Some(JArray(items)) =>
      if |items| == 3 && items[0].JNumber? && items[1].JNumber? && items[2].JNumber?
      then Vec3(items[0].n, items[1].n, items[2].n)
      else default
    case _ => default
  }

  /** The stored value of `k` if it passes the type check for its key. */
  function Accepted(parsed: Json, k: Key): (r: Option<Value>)
  {
    match Member(parsed, KeyName(k))
    case Some(JNumber(n)) => if k != CameraPosition then Some(Number(n)) else None
    case Some(JArray(items)) =>
      if k == CameraPosition && |items| == 3 && (forall i :: 0 <= i < 3 ==> items[i].JNumber?)
      then Some(Position(Vec3(items[0].n, items[1].n, items[2].n)))
      else None
    case _ => None
  }

  /** The merge of a parsed non-null value with the defaults: each key takes the stored value exactly when it has the right type. */
  function MergeWithDefaults(parsed: Json): (s: Settings)
    ensures forall k :: Get(s, k) == match Accepted(parsed, k) case Some(v) => v case None => Get(Defaults, k)
  {
    Settings(
      NumberOr(parsed, Amplitude, Defaults.amplitude),
      NumberOr(parsed, CubeSpacing, Defaults.cubeSpacing),
      NumberOr(parsed, CubeSideLength, Defaults.cubeSideLength),
      NumberOr(parsed, GridCols, Defaults.gridCols),
      NumberOr(parsed, GridRows, Defaults.gridRows),
      NumberOr(parsed, CameraFov, Defaults.cameraFov),
      PositionOr(parsed, Defaults.cameraPosition))
  }

  /** What the storage read gave: nothing (or an empty string), text that does not parse, or a parsed value. */
  datatype Stored = NothingStored | Unparsable | Parsed(value: Json)

  /** The settings after the load on mount; reading a member of `null` throws and is caught like a parse failure. */
  function Loaded(current: Settings, stored: Stored): (s: Settings)
    ensures stored.NothingStored? || stored.Unparsable? || stored == Parsed(JNull) ==> s == current
    ensures stored.Parsed? && stored.value != JNull ==> s == MergeWithDefaults(stored.value)
  {
    match stored
    case Parsed(v) => if v == JNull then current else MergeWithDefaults(v)
    case _ => current
  }

  /** `updateSetting(k, v)`. */
  function With(s: Settings, k: Key, v: Value): (r: Settings)
    requires Fits(k, v)
    ensures Get(r, k) == v
    ensures forall j :: j != k ==> Get(r, j) == Get(s, j)
  {
    match k
    case Amplitude => s.(amplitude := v.n)
    case CubeSpacing => s.(cubeSpacing := v.n)
    case CubeSideLength => s.(cubeSideLength := v.n)
    case GridCols => s.(gridCols := v.n)
    case GridRows => s.(gridRows := v.n)
    case CameraFov => s.(cameraFov := v.n)
    case CameraPosition => s.(cameraPosition := v.p)
  }

  /** `Math.min(a + 1, 50)`. */
  function Raised(a: real): (r: real)
    ensures r <= MaxAmplitude && r <= a + 1.0
    ensures r == a + 1.0 || r == MaxAmplitude
    ensures 0.0 <= a <= MaxAmplitude ==> 0.0 <= r <= MaxAmplitude
  {
    if a + 1.0 < MaxAmplitude then a + 1.0 else MaxAmplitude
  }

  /** `Math.max(a - 1, 0)`. */
  function Lowered(a: real): (r: real)
    ensures 0.0 <= r && a - 1.0 <= r
    ensures r == a - 1.0 || r == 0.0
    ensures 0.0 <= a <= MaxAmplitude ==> 0.0 <= r <= MaxAmplitude
  {
    if a - 1.0 > 0.0 then a - 1.0 else 0.0
  }

  predicate AmplitudeInRange(s: Settings)
  {
    0.0 <= s.amplitude <= MaxAmplitude
  }

  /** Missing storage or a parse failure leaves the defaults the hook starts with. */
  lemma NothingUsableKeepsDefaults(stored: Stored)
    requires !stored.Parsed? || stored.value == JNull
    ensures Loaded(Defaults, stored) == Defaults
  {
  }

  /** A stored object with no usable member gives back exactly the defaults. */
  lemma EmptyObjectMergesToDefaults()
    ensures MergeWithDefaults(JObject(map[])) == Defaults
  {
  }

  /** The settings state of the hook. */
  class SettingsHook {
    var settings: Settings

    constructor ()
      ensures settings == Defaults
    {
      settings := Defaults;
    }

    /** The one-time load from storage on mount. */
    method Load(stored: Stored)
      modifies this
      ensures settings == Loaded(old(settings), stored)
    {
      if stored.Parsed? && stored.value != JNull {
        settings := MergeWithDefaults(stored.value);
      }
    }

    method UpdateSetting(k: Key, v: Value)
      requires Fits(k, v)
      modifies this
      ensures settings == With(old(settings), k, v)
      ensures Get(settings, k) == v
      ensures forall j :: j != k ==> Get(settings, j) == Get(old(settings), j)
    {
      settings := With(settings, k, v);
    }

    method ResetToDefaults()
      modifies this
      ensures settings == Defaults
    {
      settings := Defaults;
    }

    method IncreaseAmplitude()
      modifies this
      ensures settings == old(settings).(amplitude := Raised(old(settings).amplitude))
      ensures AmplitudeInRange(old(settings)) ==> AmplitudeInRange(settings)
    {
      UpdateSetting(Amplitude, Number(Raised(settings.amplitude)));
    }

    method DecreaseAmplitude()
      modifies this
      ensures settings == old(settings).(amplitude := Lowered(old(settings).amplitude))
      ensures AmplitudeInRange(old(settings)) ==> AmplitudeInRange(settings)
    {
      UpdateSetting(Amplitude, Number(Lowered(settings.amplitude)));
    }

    method AdjustGridSize(cols: real, rows: real)
      modifies this
      ensures Get(settings, GridCols) == Number(cols) && Get(settings, GridRows) == Number(rows)
      ensures forall j :: j != GridCols && j != GridRows ==> Get(settings, j) == Get(old(settings), j)
    {
      settings := settings.(gridCols := cols, gridRows := rows);
    }
  }
}
