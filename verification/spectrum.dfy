/** The visualisation instance (CVisualizationSpectrum) as a value: the band
    factors, the target and displayed height grids, the settings, the
    rotation state, the vertex and colour buffers, and the started flag.

    The host calls the constructor once, then Start, then AudioData and
    Render as audio and frames arrive, SetSetting whenever the user changes
    a setting, and Stop at the end. Each entry point is a function from the
    old instance to the new one. */
module Spectrum {
  import opened Bands
  import opened Grids
  import opened Geometry
  import opened Power
  import opened Animation
  import opened Settings

  /** NUM_BANDS * NUM_BANDS * 6 * 2 * 3: 256 bars of 6 faces of 2 triangles of 3 vertices. */
  const BufferLength: nat := NumBands * NumBands * 6 * 2 * 3

  /** The quotient a / 360 truncated towards zero, as C's fmod takes it. */
  function Turns(a: real): (n: int)
    ensures a >= 0.0 ==> 0.0 <= a - (n as real) * 360.0 < 360.0
    ensures a <= 0.0 ==> -360.0 < a - (n as real) * 360.0 <= 0.0
  {
    if a >= 0.0 then (a / 360.0).Floor else -((-a / 360.0).Floor)
  }

  /** C fmod(a, 360): a minus whole turns, keeping the sign of a and staying
      below one turn in size; angles already below one turn are unchanged. */
  function FMod360(a: real): (r: real)
    ensures a >= 0.0 ==> 0.0 <= r < 360.0
    ensures a <= 0.0 ==> -360.0 < r <= 0.0
    ensures -360.0 < a < 360.0 ==> r == a
    ensures (a - r) / 360.0 == Turns(a) as real
  {
    a - (Turns(a) as real) * 360.0
  }

  /** The model rotation in degrees about each axis and its change per frame. */
  datatype Rotation = Rotation(xAngle: real, yAngle: real, zAngle: real,
                               xSpeed: real, ySpeed: real, zSpeed: real)

  /** The rotation the constructor and Start set up. */
  const StartRotation: Rotation := Rotation(20.0, 45.0, 0.0, 0.0, 0.5, 0.0)

  /** Render's angle update: x and z turn by their speed; y turns too unless
      the rotation_angle setting is non-negative, which pins y to it. */
  function Turn(rot: Rotation, yFixedAngle: real): (r: Rotation)
    ensures r.xAngle == FMod360(rot.xAngle + rot.xSpeed)
    ensures r.zAngle == FMod360(rot.zAngle + rot.zSpeed)
    ensures yFixedAngle < 0.0 ==> r.yAngle == FMod360(rot.yAngle + rot.ySpeed)
    ensures yFixedAngle >= 0.0 ==> r.yAngle == yFixedAngle
    ensures (r.xSpeed, r.ySpeed, r.zSpeed) == (rot.xSpeed, rot.ySpeed, rot.zSpeed)
    ensures rot.xAngle + rot.xSpeed >= 0.0 ==> 0.0 <= r.xAngle < 360.0
    ensures yFixedAngle < 0.0 && rot.yAngle + rot.ySpeed >= 0.0 ==> 0.0 <= r.yAngle < 360.0
    ensures rot.zAngle + rot.zSpeed >= 0.0 ==> 0.0 <= r.zAngle < 360.0
  {
    rot.(xAngle := FMod360(rot.xAngle + rot.xSpeed),
         yAngle := if yFixedAngle < 0.0 then FMod360(rot.yAngle + rot.ySpeed) else yFixedAngle,
         zAngle := FMod360(rot.zAngle + rot.zSpeed))
  }

  datatype Visualizer = Visualizer(
    hscale: seq<real>,
    heights: Grid,
    cHeights: Grid,
    settings: Settings,
    rotation: Rotation,
    mesh: Mesh,
    startOK: bool)

  /** What holds of every instance the entry points can produce. */
  predicate Valid(v: Visualizer) {
    && |v.hscale| == NumBands
    && (forall x :: 0 <= x < NumBands ==> v.hscale[x] > 0.0)
    && IsGrid(v.heights) && NonNegative(v.heights)
    && IsGrid(v.cHeights) && NonNegative(v.cHeights)
    && ValidSettings(v.settings)
    && |v.mesh.vertices| == BufferLength && |v.mesh.colors| == BufferLength
  }

  /** The constructor: band factors from the logarithm, settings from the
      host's stored values, buffers sized for all bars. The height arrays
      start as zero grids. */
  function Construct(log2: real -> real, barHeight: int, speed: int, mode: int, pointSizeSetting: int, rotation: int)
    : (v: Visualizer)
    requires Log2PositiveAboveOne(log2)
    ensures Valid(v) && !v.startOK
    ensures v.hscale == OctaveScales(log2)
    ensures v.settings == InitialSettings(barHeight, speed, mode, pointSizeSetting, rotation)
    ensures v.rotation == StartRotation
  {
    var zero := Vec3(0.0, 0.0, 0.0);
    var buffer := seq(BufferLength, _ => zero);
    Visualizer(OctaveScales(log2), ZeroGrid(), ZeroGrid(),
               InitialSettings(barHeight, speed, mode, pointSizeSetting, rotation),
               StartRotation, Mesh(buffer, buffer), false)
  }

  /** Start: when the shaders fail to load or link it reports failure and
      changes nothing; otherwise both grids are cleared, the rotation is
      reset and the instance is marked started. */
  function Start(v: Visualizer, shadersReady: bool): (r: (bool, Visualizer))
    ensures r.0 == shadersReady
    ensures !shadersReady ==> r.1 == v
    ensures shadersReady ==> r.1 == v.(heights := ZeroGrid(), cHeights := ZeroGrid(),
                                        rotation := StartRotation, startOK := true)
  {
    if !shadersReady then (false, v)
    else (true, v.(heights := ZeroGrid(), cHeights := ZeroGrid(), rotation := StartRotation, startOK := true))
  }

  /** Stop: a started instance becomes stopped; nothing else changes. */
  function Stop(v: Visualizer): (r: Visualizer)
    ensures !r.startOK
    ensures r == v.(startOK := false)
  {
    if !v.startOK then v else v.(startOK := false)
  }

  /** Render: nothing happens before a successful Start. Otherwise the
      displayed heights take one animation step towards the targets, the
      buffers are rebuilt from the new displayed heights and the model turns. */
  function Render(v: Visualizer): (r: Visualizer)
    requires Valid(v)
    ensures Valid(r)
    ensures !v.startOK ==> r == v
    ensures v.startOK ==>
      && r.cHeights == Animate(v.cHeights, v.heights, v.settings.hSpeed)
      && r.mesh == BuildMesh(r.cHeights, v.settings.mode)
      && r.rotation == Turn(v.rotation, v.settings.yFixedAngle)
      && r.(cHeights := v.cHeights, mesh := v.mesh, rotation := v.rotation) == v
  {
    if !v.startOK then v
    else
      var c := Animate(v.cHeights, v.heights, v.settings.hSpeed);
      AnimateNonNegative(v.cHeights, v.heights, v.settings.hSpeed);
      v.(cHeights := c, mesh := BuildMesh(c, v.settings.mode), rotation := Turn(v.rotation, v.settings.yFixedAngle))
  }

  /** AudioData: the target history scrolls and takes the new frame's row.
      The host calls it whether or not Start succeeded. */
  function AudioFrame(v: Visualizer, freq: seq<real>, log10: real -> real): (r: Visualizer)
    requires Valid(v)
    ensures Valid(r)
    ensures r.heights == ShiftIn(v.heights, FrameRow(freq, v.hscale, v.settings.scale, log10))
    ensures r.(heights := v.heights) == v
  {
    var row := FrameRow(freq, v.hscale, v.settings.scale, log10);
    FrameRowNonNegative(freq, v.hscale, v.settings.scale, log10);
    ShiftInNonNegative(v.heights, row);
    v.(heights := ShiftIn(v.heights, row))
  }

  /** SetSetting on the instance. */
  function OnSetting(v: Visualizer, name: string, value: SettingValue, pointSizeSetting: int)
    : (r: (Status, Visualizer))
    requires Valid(v)
    ensures Valid(r.1)
    ensures r.0 == SetSetting(v.settings, name, value, pointSizeSetting).0
    ensures r.0 == Unknown ==> r.1 == v
    ensures r.1 == v.(settings := SetSetting(v.settings, name, value, pointSizeSetting).1)
  {
    var s := SetSetting(v.settings, name, value, pointSizeSetting);
    SetSettingValid(v.settings, name, value, pointSizeSetting);
    (s.0, v.(settings := s.1))
  }

  /** An empty name or value, or an unknown name, is reported as Unknown
      and leaves the instance alone; a known name with a value is Ok. */
  lemma OnSettingStatus(v: Visualizer, name: string, value: SettingValue, pointSizeSetting: int)
    requires Valid(v)
    ensures OnSetting(v, name, value, pointSizeSetting).0 == Unknown <==>
      name == "" || value.text == "" || name !in KnownNames
    ensures OnSetting(v, name, value, pointSizeSetting).0 == Unknown ==>
      OnSetting(v, name, value, pointSizeSetting).1 == v
  {
  }

  /** Start keeps the instance valid. */
  lemma StartValid(v: Visualizer, shadersReady: bool)
    requires Valid(v)
    ensures Valid(Start(v, shadersReady).1)
  {
  }

  /** Stop keeps the instance valid, and a stopped instance renders nothing. */
  lemma StopThenRender(v: Visualizer)
    requires Valid(v)
    ensures Valid(Stop(v)) && Render(Stop(v)) == Stop(v)
  {
  }

  /** n frames rendered without new audio. */
  function RenderN(v: Visualizer, n: nat): (r: Visualizer)
    requires Valid(v)
    ensures Valid(r)
  {
    if n == 0 then v else Render(RenderN(v, n - 1))
  }

  /** Rendering without new audio moves every displayed bar exactly as n
      animation steps towards its fixed target, and leaves the targets alone. */
  lemma {:induction false} RenderNHeights(v: Visualizer, n: nat, y: int, x: int)
    requires Valid(v) && v.startOK && IsCell(y, x)
    ensures RenderN(v, n).heights == v.heights
    ensures RenderN(v, n).settings == v.settings && RenderN(v, n).startOK
    ensures RenderN(v, n).cHeights[y][x] == StepN(v.cHeights[y][x], v.heights[y][x], v.settings.hSpeed, n)
  {
    if n > 0 {
      RenderNHeights(v, n - 1, y, x);
    }
  }

  /** So with a positive speed every bar shows its target once the frames
      have covered its distance to it. */
  lemma RenderSettles(v: Visualizer, n: nat, y: int, x: int)
    requires Valid(v) && v.startOK && IsCell(y, x)
    requires v.settings.hSpeed > 0.0
    requires Travel(n, v.settings.hSpeed) >= Abs(v.cHeights[y][x] - v.heights[y][x])
    ensures RenderN(v, n).cHeights[y][x] == v.heights[y][x]
  {
    RenderNHeights(v, n, y, x);
    StepNReachesTarget(v.cHeights[y][x], v.heights[y][x], v.settings.hSpeed, n);
  }

  /** After a render, bar (y, x) of the buffers stands on its cell's footprint
      and is exactly as tall as the displayed height of that cell. */
  lemma RenderDrawsDisplayedHeights(v: Visualizer, y: int, x: int, i: nat)
    requires Valid(v) && v.startOK && IsCell(y, x) && i < 36
    ensures var r := Render(v);
      var k := NumBands * y + x;
      r.mesh.vertices[36 * k + i] == Place(BarBox(XMid(x), ZMid(y), r.cHeights[y][x]), BarCorners()[i])
  {
    var r := Render(v);
    MeshContents(r.cHeights, v.settings.mode, y, x, i);
  }

  /** With animation off (speed setting 4) a render shows the targets at once. */
  lemma RenderWithoutAnimation(v: Visualizer)
    requires Valid(v) && v.startOK && v.settings.hSpeed == 0.0
    ensures Render(v).cHeights == v.heights
  {
    AnimateWithoutSpeedSnaps(v.cHeights, v.heights, v.settings.hSpeed);
  }
}
