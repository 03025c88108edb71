# Spectrum visualisation: a Dafny model

This project models the Kodi "spectrum" visualisation add-on, the class
`CVisualizationSpectrum` in `src/opengl_spectrum.cpp`. The add-on keeps a
16 x 16 grid of bar heights. Each audio frame scrolls the grid's history one
row back and writes a new row of per-band loudness values. Each video frame
moves the displayed bars one animation step towards those targets, then
rebuilds a vertex buffer and a colour buffer holding 256 boxes of six quads
each.

The model has one module per part of the pipeline:

- `Bands` (`bands.dfy`): the boundary table `m_xscale` and the constructor's
  per-band `freq_lo`, `freq_hi` and bands-per-octave factor `m_hscale`, plus
  the index range each band reads from the frequency array.
- `RealArith` (`reals.dfy`): sign facts about products of reals, shared by
  the modules below.
- `Grids` (`grid.dfy`): the 16 x 16 grids `m_heights` and `m_cHeights`,
  indexed `[y][x]` with row `y` as the time history and column `x` as the band.
- `Power` (`power.dfy`): `AudioData`. It scrolls the history, sums squared
  magnitudes over each band's range clipped to the input length, maps the
  power to a clamped dB height and scales it by `m_scale`.
- `Animation` (`animation.dfy`): the constant-rate step of `m_cHeights`
  towards `m_heights` inside `add_bars`.
- `Geometry` (`geometry.dfy`): `add_quad`, `add_bar` and `add_bars`. Box
  corners are symbolic (`Corner`), so the topology claims can be proved
  independently of coordinates: counter-clockwise winding, and every box edge
  drawn exactly once in line mode. `Place` maps a corner to a position.
- `Settings` (`settings.dfy`): `SetBarHeightSetting`, `SetSpeedSetting`,
  `SetModeSetting` and the string-keyed `SetSetting` dispatcher.
- `Spectrum` (`spectrum.dfy`): the instance as an immutable value, with the
  constructor, `Start`, `Stop`, `Render`, `AudioData` and `SetSetting` as
  functions from the old instance to the new one.

Floats are modelled as reals, and float literals as exact decimals. `log2f`
and `log10f` are function-valued parameters. They carry only the hypotheses
the proofs use: `log2` is positive above one (`Bands.Log2PositiveAboveOne`),
and `log10` is non-decreasing (`Power.Log10Monotone`). Shader loading in
`Start` is a boolean parameter. Values the host's settings store would supply
(`kodi::GetSettingInt`) are parameters too.

## Model

| member | source | states |
|---|---|---|
| Bands.XScaleStrictlyIncreasing | src/opengl_spectrum.cpp:82 | The table has 17 entries, runs from 0 to 256 and strictly increases. |
| Bands.StepAtLeastTwo | src/opengl_spectrum.cpp:82 | Consecutive boundaries differ by at least two, and every boundary is even, so halving keeps bands apart. |
| Bands.XScaleBounds | src/opengl_spectrum.cpp:469 | Each band's nominal range [m_xscale[x], m_xscale[x+1]) is at least two wide and lies inside [0, 256]. The input length can still cut it short (ReadHiStops). |
| Bands.FrequencyBounds | src/opengl_spectrum.cpp:142-147 | 1 <= freq_lo <= freq_hi <= 128 for every band, so no band covers the DC bin. Each band's freq_lo is the previous band's freq_hi + 1, so the bands leave no gap and do not overlap. |
| Bands.FreqLo | src/opengl_spectrum.cpp:145 | freq_lo is at least 1 and is one past half the band's lower boundary, so the halving discards no remainder. |
| Bands.FreqHi | src/opengl_spectrum.cpp:146 | freq_hi is exactly half the next band's boundary. |
| Bands.OctaveRatio | src/opengl_spectrum.cpp:148 | The ratio handed to log2f is greater than one, and times (freq_lo - 0.5) it gives freq_hi + 0.5. |
| Bands.OctaveScale | src/opengl_spectrum.cpp:148 | m_hscale[x] is positive and is the reciprocal of the band's octave count: it times log2(ratio) is 1. |
| Bands.OctaveScales | src/opengl_spectrum.cpp:142-149 | The constructor loop yields 16 factors, each positive and each the reciprocal of its band's octave count. |
| Bands.ReadHiStops | src/opengl_spectrum.cpp:469 | A band's loop stops at the next boundary or at the input length, whichever comes first, and never runs past either. |
| Bands.ReadsInBounds | src/opengl_spectrum.cpp:469 | No band reads at or past the input length, nor past index 255. |
| Bands.ReadsDisjoint | src/opengl_spectrum.cpp:469 | No index is read by two different bands. |
| Bands.ReadsCover | src/opengl_spectrum.cpp:469 | Every index below min(256, length) is read by some band; with ReadsDisjoint, the ranges tile that prefix. |
| Grids.ZeroGrid | src/opengl_spectrum.cpp:178-185 | The reset grid is 16 x 16, and every cell is 0. |
| Power.Square | src/opengl_spectrum.cpp:471 | A squared magnitude is never negative, and it is positive for any non-zero magnitude. |
| Power.RangePower | src/opengl_spectrum.cpp:468-472 | The summed power of a range is non-negative, and it is zero for an empty range. |
| Power.RangePowerPastEnd | src/opengl_spectrum.cpp:469 | Indices at or past the end of the input add nothing to a band's sum. |
| Power.RangePowerSilent | src/opengl_spectrum.cpp:468-472 | A range holding only zero magnitudes has zero power. |
| Power.RangePowerAudible | src/opengl_spectrum.cpp:468-472 | A range holding a non-zero magnitude has positive power. |
| Power.BandPowerSign | src/opengl_spectrum.cpp:468-474 | pow, the halved sum of squares times m_hscale[x], is positive exactly when the band's sum is positive, provided the factor is positive. It is never negative for a non-negative factor and is 0 for a zero factor. |
| Power.Decibels | src/opengl_spectrum.cpp:477 | Power that is not positive maps to 0. Positive power maps to a non-negative value exactly when log10(pow) >= -9.6, that is, at or above -96 dB. |
| Power.ConvertPower | src/opengl_spectrum.cpp:477-480 | The conversion statements compute Loudness: the dB value, cut off at 0. |
| Power.Loudness | src/opengl_spectrum.cpp:477-480 | h >= 0. h is 0 when the power is not positive or lies at or below -96 dB. Otherwise h is 10 log10(pow) / 96 + 1. |
| Power.LoudnessMonotone | src/opengl_spectrum.cpp:477-480 | When log10 is monotone, more power never gives a lower bar. |
| Power.BandHeight | src/opengl_spectrum.cpp:482 | The stored value is non-negative for a non-negative scale, and it is 0 whenever the band's power is not positive. |
| Power.FrameRow | src/opengl_spectrum.cpp:452-483 | The new row has 16 entries, and entry x is band x's clamped loudness times the scale. |
| Power.ShiftColumn | src/opengl_spectrum.cpp:455-458 | The inner loop moves column x back one row and keeps row 0's value. It leaves every other column alone. |
| Power.SumBand | src/opengl_spectrum.cpp:468-472 | The summing loop computes the band's range power, stopping at the next boundary or at the end of the input. |
| Power.IngestBand | src/opengl_spectrum.cpp:452-483 | One iteration of the band loop: column x scrolls and row 0 receives the band's height. Other columns are unchanged. |
| Power.AudioData | src/opengl_spectrum.cpp:444-484 | Rows 1..15 take the previous rows 0..14, and the old row 15 is dropped. Row 0 holds each band's height. The result is ShiftIn of the frame's row. |
| Power.SilentBand | src/opengl_spectrum.cpp:468-482 | A band whose own read range holds only zero magnitudes gets height exactly 0, whatever the other bands hear and whatever the scale. |
| Power.ShortInputSilentBand | src/opengl_spectrum.cpp:469 | An input too short to reach band x (iFreqDataLength <= m_xscale[x]) gives that band height exactly 0. |
| Power.SilentFrame | src/opengl_spectrum.cpp:468-482 | An all-zero input writes a row of zeros, whatever the scale. |
| Power.AudibleBand | src/opengl_spectrum.cpp:468-474 | A band whose range holds a non-zero magnitude has positive power once the octave factor is applied. |
| Power.FrameRowLinearInScale | src/opengl_spectrum.cpp:482 | The stored heights are linear in m_scale. |
| Power.FrameRowNonNegative | src/opengl_spectrum.cpp:477-482 | With a non-negative scale every new row-0 value is non-negative. |
| Power.TwoFrames | src/opengl_spectrum.cpp:452-482 | After frames A then B, row 0 is B, row 1 is A and row y holds the old row y - 2. |
| Power.ShiftInNonNegative | src/opengl_spectrum.cpp:452-482 | Scrolling in a non-negative row keeps a non-negative history non-negative. |
| Animation.Step | src/opengl_spectrum.cpp:423-431 | The bar snaps to its target when the speed is not positive or the target is within one step. Otherwise it moves exactly one step towards the target. It never overshoots, its distance to the target never grows, and a bar at its target stays there. |
| Animation.StepDistance | src/opengl_spectrum.cpp:423-431 | After one frame, the distance to the target is max(0, distance - speed). |
| Animation.StepNDistance | src/opengl_spectrum.cpp:423-431 | After n frames, the distance to the target is max(0, distance - n * speed). |
| Animation.StepNReachesTarget | src/opengl_spectrum.cpp:423-431 | Once n * speed covers the distance, the bar shows its target. |
| Animation.StepNSameSide | src/opengl_spectrum.cpp:423-431 | A bar below (above) its target never rises above (falls below) it. |
| Animation.Animate | src/opengl_spectrum.cpp:409-431 | The grid step moves every cell by Step towards its own target. |
| Animation.AnimateFixedPoint | src/opengl_spectrum.cpp:423-431 | A grid that already shows its targets does not change. |
| Animation.AnimateWithoutSpeedSnaps | src/opengl_spectrum.cpp:423-431 | With speed 0 the grid jumps to its targets in one frame. |
| Animation.AnimateNonNegative | src/opengl_spectrum.cpp:423-431 | Stepping between non-negative grids gives a non-negative grid. |
| Animation.AnimateApproaches | src/opengl_spectrum.cpp:423-431 | No cell ends further from its target than it started. |
| Geometry.PlaceInjective | src/opengl_spectrum.cpp:355-364 | In a box of positive extent, distinct corners have distinct coordinates. |
| Geometry.FaceQuad | src/opengl_spectrum.cpp:386-397 | Each quad add_bar passes names four distinct corners, all lying on its face. |
| Geometry.Shade | src/opengl_spectrum.cpp:368-379 | Every face multiplier lies in (0, 1]. A multiplier is below 1 exactly for the four side faces in triangle mode. |
| Geometry.FaceColor | src/opengl_spectrum.cpp:386-397 | Each face's colour is the bar's base colour times that face's multiplier. |
| Geometry.XMid | src/opengl_spectrum.cpp:417 | x_mid is -1.5 + 0.2 x, so the 16 columns run from -1.5 to 1.5. |
| Geometry.ZMid | src/opengl_spectrum.cpp:411 | z_mid is 1.5 - 0.2 y, so the 16 rows run from 1.5 down to -1.5. |
| Geometry.QuadStream | src/opengl_spectrum.cpp:335-340 | add_quad emits six vertices. |
| Geometry.QuadReadings | src/opengl_spectrum.cpp:335-340 | A quad's stream a, b, c, c, d, a is read three ways. As triangles it is (a, b, c) and (c, d, a). As lines it is a-b, the degenerate c-c and d-a. As points it covers exactly the four corners. |
| Geometry.AddQuad | src/opengl_spectrum.cpp:329-346 | add_quad appends six vertices and six copies of its colour, and keeps everything already in the buffers. |
| Geometry.AddFaces | src/opengl_spectrum.cpp:386-397 | Each face adds six entries to both buffers and keeps earlier entries. |
| Geometry.AddBar | src/opengl_spectrum.cpp:348-398 | add_bar appends 36 entries to both buffers and keeps earlier entries. |
| Geometry.AddFacesContents | src/opengl_spectrum.cpp:386-397 | The j-th appended vertex is the placed corner j % 6 of face j / 6's stream, coloured with that face's colour. |
| Geometry.AddBarContents | src/opengl_spectrum.cpp:366-397 | Bar vertex i is the placed corner BarCorners()[i], and its colour is the base colour times face i / 6's multiplier. |
| Geometry.ShadeDarkensSides | src/opengl_spectrum.cpp:368-379 | In triangle mode the back is the darkest of the side faces and the front the brightest. |
| Geometry.UnshadedOutsideTriangleMode | src/opengl_spectrum.cpp:368-379 | Outside triangle mode, every vertex of a bar has the unscaled base colour. |
| Geometry.EdgeSlot | src/opengl_spectrum.cpp:383-384 | Every one of the twelve box edges has a slot among the 18 line pairs of a bar, and no slot is a degenerate c-c pair. |
| Geometry.BarLine | src/opengl_spectrum.cpp:386-397 | Line l of a bar's line list is line l % 3 of face l / 3's quad. |
| Geometry.FaceLines | src/opengl_spectrum.cpp:383-384 | Each face's first and last corners are chosen so that both of its real lines are box edges, drawn at the slots EdgeSlot names. |
| Geometry.LineModeSegments | src/opengl_spectrum.cpp:383-384 | Of a bar's 18 line pairs, exactly those at l % 3 == 1 are degenerate. Each other pair is a box edge at its own slot. |
| Geometry.LineModeCoversEveryEdge | src/opengl_spectrum.cpp:383-384 | In line mode every box edge is drawn. |
| Geometry.LineModeDrawsEachEdgeOnce | src/opengl_spectrum.cpp:383-384 | In line mode no box edge is drawn twice. |
| Geometry.FaceWinding | src/opengl_spectrum.cpp:382 | For a box of positive extent, both triangles of every face are counter-clockwise seen from outside: their normals point away from the centre. |
| Geometry.BarVertex | src/opengl_spectrum.cpp:386-397 | Vertex i of a bar's stream is vertex i % 6 of face i / 6's placed quad stream. |
| Geometry.BarTriangle | src/opengl_spectrum.cpp:386-397 | Triangle t of a bar's stream is triangle t % 2 of face t / 2's quad. |
| Geometry.BarWinding | src/opengl_spectrum.cpp:381-397 | A bar of positive height gives twelve triangles, all counter-clockwise seen from outside. |
| Geometry.BarBox | src/opengl_spectrum.cpp:355-364 | The box is 0.1 wide and deep, centred on (x_mid, z_mid), and runs from the floor to the height. It has positive extent whenever the height is positive. |
| Geometry.FootprintsDisjoint | src/opengl_spectrum.cpp:409-417 | Bars of different columns or rows never overlap. |
| Geometry.BarColor | src/opengl_spectrum.cpp:413-421 | Every colour channel of a bar lies in [0, 1]. |
| Geometry.CornerColors | src/opengl_spectrum.cpp:413-421 | The bars in the four corners of the grid are red, green, blue and cyan. |
| Geometry.AddBarAppends | src/opengl_spectrum.cpp:348-398 | add_bar appends exactly the closed-form bar BarMesh to the buffers. |
| Geometry.ConcatAt | src/opengl_spectrum.cpp:409-435 | In a run of 36-entry bars, entry 36k + i is entry i of bar k. |
| Geometry.BarsIsAddBarFold | src/opengl_spectrum.cpp:409-435 | The buffers after k + 1 cells are one add_bar call, with cell k's box and colour, on the buffers after k cells. |
| Geometry.BuildMesh | src/opengl_spectrum.cpp:227-230 | Clearing the buffers and calling add_bars leaves exactly 16 * 16 * 6 * 2 * 3 vertices and colours, the size the constructor reserves at line 156. |
| Geometry.MeshContents | src/opengl_spectrum.cpp:409-435 | Entry 36(16y + x) + i of the rebuilt buffers is corner i of cell (y, x)'s box. Its colour is cell (y, x)'s gradient colour shaded per face. |
| Settings.BarHeightScale | src/opengl_spectrum.cpp:486-514 | Every selector gives a positive bar-height scale. |
| Settings.UnknownSelectorsReadAsZero | src/opengl_spectrum.cpp:486-569 | A selector outside 1..4 acts as selector 0: scale 0.5, speed 0.0125, and triangle mode with point size 0. |
| Settings.BarHeightOrdered | src/opengl_spectrum.cpp:488-504 | Selectors 0 < 1 < 2 < 3 give strictly taller bars, and selector 1 is the unit scale. |
| Settings.AnimationSpeed | src/opengl_spectrum.cpp:516-544 | The speed is never negative, and it is zero exactly for selector 4. |
| Settings.AnimationSpeedDoubles | src/opengl_spectrum.cpp:518-534 | Selectors 0 to 3 double the speed at each step. |
| Settings.ModeOf | src/opengl_spectrum.cpp:546-569 | Selector 2 is point mode, with the stored point size. Selector 1 is line mode. Anything else is triangle mode. Only point mode has a non-zero point size. |
| Settings.SetSetting | src/opengl_spectrum.cpp:575-603 | It returns Unknown, changing nothing, exactly when the name or value is empty or the name is not one of the four. Otherwise it returns Ok, and exactly the named field takes the value's reading. |
| Settings.SetSettingValid | src/opengl_spectrum.cpp:575-603 | Every setting change keeps the scale positive, the speed non-negative and the point size zero outside point mode. |
| Settings.SetSettingIdempotent | src/opengl_spectrum.cpp:575-603 | Sending the same setting twice has the same effect as sending it once. |
| Settings.SetSettingCommutes | src/opengl_spectrum.cpp:575-603 | Two settings with different names can be applied in either order with the same result. |
| Settings.InitialSettings | src/opengl_spectrum.cpp:151-154 | The constructor decodes the four stored settings with the same tables as SetSetting, and the result is valid. |
| Spectrum.Turns | src/opengl_spectrum.cpp:232 | The number of whole turns is the quotient by 360, truncated towards zero. |
| Spectrum.FMod360 | src/opengl_spectrum.cpp:232-239 | fmod(a, 360) keeps the sign of a and stays below one turn in size. It leaves angles already below one turn unchanged and differs from a by whole turns. |
| Spectrum.Turn | src/opengl_spectrum.cpp:232-239 | The x and z angles become fmod(angle + speed, 360). The y angle does the same when rotation_angle is negative; otherwise y is pinned to rotation_angle. An advanced angle whose sum is non-negative lands in [0, 360). The speeds are unchanged. |
| Spectrum.Construct | src/opengl_spectrum.cpp:127-158 | The new instance is valid and not started. Its factors are the per-band octave factors, its settings are the decoded stored settings, its rotation is the starting one, and its buffers have the full size. |
| Spectrum.Start | src/opengl_spectrum.cpp:160-202 | When the shaders fail, Start reports false and changes nothing. Otherwise it reports true, clears both grids, resets the rotation and marks the instance started, leaving the rest unchanged. |
| Spectrum.Stop | src/opengl_spectrum.cpp:204-217 | Afterwards the instance is not started, and nothing else has changed. |
| Spectrum.Render | src/opengl_spectrum.cpp:222-240 | Before a successful Start, Render changes nothing. Otherwise the displayed heights take one animation step, the buffers are rebuilt from them, and the model turns; nothing else changes. The result is valid. |
| Spectrum.AudioFrame | src/opengl_spectrum.cpp:444-484 | Only the target history changes, and it becomes ShiftIn of the frame's row. The instance stays valid. |
| Spectrum.OnSetting | src/opengl_spectrum.cpp:575-603 | It returns SetSetting's status, only the settings change, as SetSetting says, and the instance stays valid. |
| Spectrum.OnSettingStatus | src/opengl_spectrum.cpp:578-602 | The instance reports Unknown, unchanged, exactly when the name or value is empty or the name is not one of the four; otherwise it reports Ok. |
| Spectrum.StartValid | src/opengl_spectrum.cpp:160-202 | Start keeps the instance valid. |
| Spectrum.StopThenRender | src/opengl_spectrum.cpp:204-226 | After Stop, Render is a no-op. |
| Spectrum.RenderNHeights | src/opengl_spectrum.cpp:222-231 | Without new audio, n renders move every displayed bar exactly n animation steps towards its fixed target. The targets and settings are left alone. |
| Spectrum.RenderSettles | src/opengl_spectrum.cpp:423-431 | With a positive speed, every bar shows its target once the frames have covered its distance. |
| Spectrum.RenderDrawsDisplayedHeights | src/opengl_spectrum.cpp:230-433 | After a render, bar (y, x) in the buffers stands on its cell's footprint and is as tall as that cell's new displayed height. |
| Spectrum.RenderWithoutAnimation | src/opengl_spectrum.cpp:535-538 | With speed selector 4 (speed 0), one render shows the targets. |

## Left out

- OpenGL and glm: buffer objects, attribute pointers, depth, culling and blend state, `glDrawArrays`, and the projection and model-view matrices (`m_projMat`, `m_modelMat`). These are GPU calls. The buffers are modelled, and so is how `glDrawArrays` reads them: as triangles (`TriangleList`), as lines (`LineList`) and as points (the corner set stated by `QuadReadings`). The rendering itself is not.
- Shader loading and linking in `Start`: only the outcome is modelled, as a boolean parameter. `OnCompiledAndLinked` only fetches the GL uniform and attribute locations, and `OnEnabled` only uploads the projection matrix, the model matrix and the point size to them. Both are left out.
- Host calls: `kodi::GetSettingInt`, `GetAddonPath`, `Log`, and the parsing inside `CSettingValue` (its text and integer reading are given together). Their values are parameters.
- `GetInfo` and `ADDONCREATOR`: registration boilerplate with no state.
- `log2f` and `log10f`: parameters, constrained only by the hypotheses stated above.
- Float rounding: reals replace 32-bit floats. The constants 0.33, 0.0125 and 0.1 are exact, and `fmod` is exact.
- Threads: `AudioData` and `Render` are modelled as atomic steps. The source has no locking.
- Spectrum.Construct: the source leaves `m_heights` and `m_cHeights` uninitialised until `Start`. The model starts both as zero grids, so it says nothing about rendering before a successful `Start`. Render does nothing then anyway, but `AudioData` reads the uninitialised history.
- Spectrum.Render: `add_bars` interleaves the animation step and the bar emission cell by cell. The model applies the whole animation step first (`Animate`) and then emits all bars (`BuildMesh`). Each bar reads only its own cell's new height, so the buffers and grids are the same.
- Power.AudioData: the input length is the length of the sequence, so a negative `iFreqDataLength` is not modelled.
