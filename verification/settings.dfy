/** The user settings of the visualisation and the host's SetSetting entry point.

    Each setting arrives as a name and a value; the integer reading of the
    value selects an entry of a small table. Unknown selectors fall back to the
    table's entry 0. The host's settings store (kodi::GetSettingInt) is not
    modelled: the "pointsize" value it would return is a parameter. */
module Settings {
  import opened Geometry

  /** The fields the settings write: m_scale, m_hSpeed, m_mode, m_pointSize, m_y_fixedAngle. */
  datatype Settings = Settings(scale: real, hSpeed: real, mode: Primitive, pointSize: real, yFixedAngle: real)

  /** What every reachable settings value satisfies: bars have a positive
      height scale, the animation never runs backwards, and only point mode
      has a point size. */
  predicate ValidSettings(s: Settings) {
    s.scale > 0.0 && s.hSpeed >= 0.0 && (s.mode != Points ==> s.pointSize == 0.0)
  }

  /** SetBarHeightSetting: 0 small, 1 standard, 2 big, 3 real big, 4 unused. */
  function BarHeightScale(v: int): (scale: real)
    ensures scale > 0.0
  {
    match v
    case 1 => 1.0
    case 2 => 2.0
    case 3 => 3.0
    case 4 => 0.33
    case _ => 0.5
  }

  /** Any selector outside 1..4 reads as 0: the small scale and the slowest animation. */
  lemma UnknownSelectorsReadAsZero(v: int)
    requires !(1 <= v <= 4)
    ensures BarHeightScale(v) == BarHeightScale(0) == 0.5
    ensures AnimationSpeed(v) == AnimationSpeed(0) == 0.0125
    ensures ModeOf(v, 0) == ModeOf(0, 0) == (Triangles, 0.0)
  {
  }

  /** Bigger selections give taller bars (0 < 1 < 2 < 3); 1 is the unit scale. */
  lemma BarHeightOrdered(v: int, v': int)
    requires 0 <= v < v' <= 3
    ensures BarHeightScale(v) < BarHeightScale(v')
    ensures BarHeightScale(1) == 1.0
  {
  }

  /** SetSpeedSetting: the animation step per frame; 4 disables the animation. */
  function AnimationSpeed(v: int): (speed: real)
    ensures speed >= 0.0
    ensures speed == 0.0 <==> v == 4
  {
    match v
    case 1 => 0.025
    case 2 => 0.05
    case 3 => 0.1
    case 4 => 0.0
    case _ => 0.0125
  }

  /** Selections 0 to 3 double the speed each time. */
  lemma AnimationSpeedDoubles(v: int)
    requires 0 <= v < 3
    ensures AnimationSpeed(v + 1) == 2.0 * AnimationSpeed(v)
  {
  }

  /** SetModeSetting: 1 lines, 2 points with the stored point size, otherwise
      filled triangles; only point mode keeps a point size. */
  function ModeOf(v: int, pointSizeSetting: int): (r: (Primitive, real))
    ensures r.0 == Points <==> v == 2
    ensures r.0 == Lines <==> v == 1
    ensures r.0 == Points ==> r.1 == pointSizeSetting as real
    ensures r.0 != Points ==> r.1 == 0.0
  {
    match v
    case 1 => (Lines, 0.0)
    case 2 => (Points, pointSizeSetting as real)
    case _ => (Triangles, 0.0)
  }

  /** kodi::CSettingValue: the text the host stored and its integer reading
      (GetInt). The parsing itself belongs to the host. */
  datatype SettingValue = SettingValue(text: string, asInt: int)

  /** ADDON_STATUS: only the two outcomes SetSetting returns. */
  datatype Status = Ok | Unknown

  /** The names SetSetting understands. */
  const KnownNames: set<string> := {"bar_height", "speed", "mode", "rotation_angle"}

  /** SetSetting: an empty name or value, or a name outside KnownNames, is
      refused and changes nothing; otherwise exactly the named field (the mode
      together with its point size) takes the value's reading. */
  function SetSetting(s: Settings, name: string, value: SettingValue, pointSizeSetting: int): (r: (Status, Settings))
    ensures r.0 == Unknown <==> name == "" || value.text == "" || name !in KnownNames
    ensures r.0 == Unknown ==> r.1 == s
    ensures r.0 == Ok && name == "bar_height" ==>
      r.1 == s.(scale := BarHeightScale(value.asInt))
    ensures r.0 == Ok && name == "speed" ==>
      r.1 == s.(hSpeed := AnimationSpeed(value.asInt))
    ensures r.0 == Ok && name == "mode" ==>
      r.1 == s.(mode := ModeOf(value.asInt, pointSizeSetting).0, pointSize := ModeOf(value.asInt, pointSizeSetting).1)
    ensures r.0 == Ok && name == "rotation_angle" ==>
      r.1 == s.(yFixedAngle := value.asInt as real)
  {
    if name == [] || value.text == [] then
      (Unknown, s)
    else if name == "bar_height" then
      (Ok, s.(scale := BarHeightScale(value.asInt)))
    else if name == "speed" then
      (Ok, s.(hSpeed := AnimationSpeed(value.asInt)))
    else if name == "mode" then
      var m := ModeOf(value.asInt, pointSizeSetting);
      (Ok, s.(mode := m.0, pointSize := m.1))
    else if name == "rotation_angle" then
      (Ok, s.(yFixedAngle := value.asInt as real))
    else
      (Unknown, s)
  }

  /** Every setting change keeps the settings valid. */
  lemma SetSettingValid(s: Settings, name: string, value: SettingValue, pointSizeSetting: int)
    requires ValidSettings(s)
    ensures ValidSettings(SetSetting(s, name, value, pointSizeSetting).1)
  {
  }

  /** Sending the same setting twice has the effect of sending it once. */
  lemma SetSettingIdempotent(s: Settings, name: string, value: SettingValue, pointSizeSetting: int)
    ensures var once := SetSetting(s, name, value, pointSizeSetting);
      SetSetting(once.1, name, value, pointSizeSetting) == once
  {
  }

  /** Settings with different names do not interfere: the order they arrive in
      does not matter. */
  lemma SetSettingCommutes(s: Settings, n1: string, v1: SettingValue, n2: string, v2: SettingValue, p: int)
    requires n1 != n2
    ensures SetSetting(SetSetting(s, n1, v1, p).1, n2, v2, p).1
         == SetSetting(SetSetting(s, n2, v2, p).1, n1, v1, p).1
  {
  }

  /** The constructor's reading of the four stored settings. */
  function InitialSettings(barHeight: int, speed: int, mode: int, pointSizeSetting: int, rotation: int): (s: Settings)
    ensures ValidSettings(s)
    ensures s.scale == BarHeightScale(barHeight) && s.hSpeed == AnimationSpeed(speed)
    ensures (s.mode, s.pointSize) == ModeOf(mode, pointSizeSetting)
    ensures s.yFixedAngle == rotation as real
  {
    var m := ModeOf(mode, pointSizeSetting);
    Settings(BarHeightScale(barHeight), AnimationSpeed(speed), m.0, m.1, rotation as real)
  }
}
