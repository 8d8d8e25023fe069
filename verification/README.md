# DMX moving head and audio playlist item, in Dafny

This project models two pieces of the xLights / xSchedule lighting suite.

**The DMX moving-head model** (`xLights/models/DmxModel.cpp`) is a fixture
with one node per DMX channel. `InitModel` lays the nodes out as a
single-colour-white string of `parm1` channels in a render buffer one cell
high. It also reads the fixture attributes from the model's XML node:
the style (top or side view), the pan and tilt channels with their
orientation and degrees of rotation, and the red, green and blue channels.
`DrawModelOnWindow` draws one frame:
- it reads the current channel values;
- it decides the beam colour, the pan and tilt angles, the beam flip and
  the beam edges;
- it appends a fixed sequence of vertices, circles and rectangles to a
  drawing accumulator.

`OnPropertyGridChange` turns an edit in the property grid into the
attribute text written back and a refresh code.

**The audio playlist item** (`xSchedule/PlayList/PlayListItemAudio.cpp`) is
an xSchedule playlist step that plays one audio file. It has these parts:
- its file path and duration (probed cheaply when the path is set);
- a "controls timing" flag;
- at most one open `AudioManager` handle, created by `LoadFiles` and
  released by `CloseFiles`.

`Start`, `Stop`, `Pause`/`Suspend`, `Restart` and `GetPositionMS` drive
that handle.

Files:
- `numeric.dfy` (module `Numeric`): the C++ truncating `(int)` cast,
  `wxAtoi`-style parsing and `%d` formatting, with their round trip.
- `dmx.dfy` (module `Dmx`) contains:
  - the `dmxPoint` transform;
  - the drawing decisions as functions, and the drawing itself as
    methods on an append-only `Accumulator` class, proved equal to those
    functions;
  - the render-buffer layout, `InitModel` and the property grid;
  - the `DmxModel` class whose fields these methods update.
- `playlist.dfy` (module `PlayList`) contains:
  - the `PlayListItemAudio` class over an `AudioManager` class, which
    records the commands it receives;
  - the extension and file-name functions.

The file system, the audio decoder, trigonometry and the transparency
rule are outside the model. They enter as function-valued parameters:
- `Media(fileExists, probeLengthMS, decodedLengthMS)`;
- `Renderer(sinDeg, cosDeg, applyTransparency)`.

Behaviour of the code worth knowing:
- A fixture with an unassigned red, green or blue channel draws a white
  beam, and that beam is "on" whenever the fixture is active.
- The flip does not wrap the pan angle: the flipped angle lies in
  [0, 360) exactly when the raw pan angle lies in [-180, 540). With the
  default 540-degree pan range, channel value 255 gives 540 degrees,
  which flips to 360.
- Starting an item whose file is missing leaves its duration and timing
  flag as they were. It does not reset them.
- `SetAudioFile` does not release an open handle.
- The duration shown before playing is the fast probe's length and the
  one shown once playing is the decoder's length; they agree only when
  those two agree (`StartThenStop` returns both).

## Model

| member | source | states |
|---|---|---|
| Numeric.Trunc | xLights/models/DmxModel.cpp:373-376 | the `(int)` cast truncates toward zero: the result is within 1 of the value on the side of zero, and negative exactly when the value is at most -1 |
| Numeric.TruncNegate | xLights/models/DmxModel.cpp:373-376 | truncation commutes with negation, unlike floor |
| Numeric.AtoiFormatRoundTrip | xLights/models/DmxModel.cpp:151-195 | a number written with `%d` reads back through `atoi` as the same number |
| Numeric.AtoiWithoutDigits | xLights/models/DmxModel.cpp:225-233 | attribute text that does not go on with a digit after its leading spaces and one optional sign reads as 0 |
| Numeric.Atoi | xLights/models/DmxModel.cpp:225-233 | `wxAtoi` gives a negative value only for text whose first non-space character is '-', and a non-negative one when that character is a digit; AtoiFormatRoundTrip makes it the inverse of `%d` |
| Numeric.FormatDecimal | xLights/models/DmxModel.cpp:148-193 | `%d` writes a leading '-' exactly for a negative number, followed by digits only, and never starts with white space |
| Dmx.DmxPoint.constructor | xLights/models/DmxModel.cpp:32-49 | the point is scaled, rotated by the angle's sine and cosine, and moved to the truncated centre |
| Dmx.TransformPreservesDistance | xLights/models/DmxModel.cpp:32-49 | with a true sine/cosine pair the point ends at `scale` times its original distance from the centre |
| Dmx.TransformInverse | xLights/models/DmxModel.cpp:32-49 | rotating back by the same angle and undoing the translation recovers the scaled point |
| Dmx.ChannelsUsable | xLights/models/DmxModel.cpp:295-302 | the drawing guard; once it passes, every node index read (pan, tilt and each assigned colour channel, minus one) is within the node list |
| Dmx.SourceGuardAdmitsChannelZero | xLights/models/DmxModel.cpp:295-302 | the guard as written lets pan channel 0 through, after which node index -1 is read |
| Dmx.GuardSkipsDrawing | xLights/models/DmxModel.cpp:295-302 | a channel beyond the node count (or negative) makes the call draw nothing |
| Dmx.BeamColorChoice | xLights/models/DmxModel.cpp:321-336 | the beam colour is the colour channels' values when all three are assigned and white otherwise; the beam is off exactly when it is black or the fixture inactive; off means a white beam and a black marker, and on means the marker takes the beam colour |
| Dmx.UnassignedColorKeepsBeamOn | xLights/models/DmxModel.cpp:321-336 | with a colour channel unassigned the beam is off exactly when the fixture is inactive |
| Dmx.ChannelAngle | xLights/models/DmxModel.cpp:341-344 | channel value 0 gives the orientation, 255 gives orientation plus rotation range, and every value lies between them |
| Dmx.ChannelAngleMonotone | xLights/models/DmxModel.cpp:341-344 | a larger channel value never gives a smaller angle |
| Dmx.FlipPan | xLights/models/DmxModel.cpp:346-355 | the pan angle turns by 180 degrees, downward exactly from 180 on; the result lies in [0, 360) exactly for a pan angle in [-180, 540) |
| Dmx.FullPanRangeFlipsToFullTurn | xLights/models/DmxModel.cpp:341-355 | with the default 540-degree pan range the largest channel value flips to 360 degrees, outside [0, 360) |
| Dmx.FlipPanTwice | xLights/models/DmxModel.cpp:346-355 | within [0, 360) flipping twice is the identity |
| Dmx.FlipBeam | xLights/models/DmxModel.cpp:346-355 | a negative tilt length is negated and flips the pan angle; a non-negative one leaves both alone; the length is never negative afterwards |
| Dmx.BeamEdges | xLights/models/DmxModel.cpp:363-372 | the edges lie 15 degrees either side of the angle, the lower wrapped up by 360 only when negative and the upper down only when above 360, and for an angle in [0, 360] both stay in range |
| Dmx.BeamEdgesWrapInvisible | xLights/models/DmxModel.cpp:363-372 | for a sine and cosine of period 360 the wrapping changes neither edge's direction |
| Dmx.AngleDecisions | xLights/models/DmxModel.cpp:341-372 | the tilt angle comes from the tilt channel; the flip applies exactly when the projected tilt length is negative; the governing angle is the pan angle in top view and the tilt angle in side view; the edges lie 15 degrees either side of it |
| Dmx.MakeDecisions | xLights/models/DmxModel.cpp:304-372 | the imperative colour, angle, flip and edge code computes exactly the decisions `Decide` defines |
| Dmx.DmxModel.DrawModelOnWindow | xLights/models/DmxModel.cpp:288-443 | one call appends to the accumulator exactly `DrawItems` of the fixture's configuration and nodes, which is nothing when the guard fails |
| Dmx.DrawFrame | xLights/models/DmxModel.cpp:378-442 | appends the beam, the body of the selected view and the submission, in that order |
| Dmx.DrawBeam | xLights/models/DmxModel.cpp:373-382 | appends the beam triangle: the centre, then the two edge ends at four radii, each offset truncated |
| Dmx.DrawTopView | xLights/models/DmxModel.cpp:384-404 | appends the head circle, the two triangles of the angle line and the tilt marker circle |
| Dmx.DrawSideView | xLights/models/DmxModel.cpp:405-440 | appends the head, the base circle and rectangle, and the pan marker |
| Dmx.DrawSideHead | xLights/models/DmxModel.cpp:406-428 | appends the four triangles over the six head points, in source order |
| Dmx.DrawPanMarker | xLights/models/DmxModel.cpp:434-439 | appends the pan marker triangle from the centre along the pan angle |
| Dmx.FrameShape | xLights/models/DmxModel.cpp:378-442 | a frame is 12 items with 9 vertices in top view and 21 with 18 in side view; it starts with the beam vertex at the centre and ends with the submission |
| Dmx.DrawnGeometryShape | xLights/models/DmxModel.cpp:288-443 | for a configuration that passes the guard, the appended geometry has the shape of the style chosen in the attributes |
| Dmx.DmxModel.GetBufferSize | xLights/models/DmxModel.cpp:58-61 | the buffer is one column per node and one row; InitModel proves it equal to the size it sets |
| Dmx.DmxModel.InitRenderBufferNodes | xLights/models/DmxModel.cpp:59-75 | the buffer is node count by 1; a clone of every node is appended and the entry at each node index is placed in that column; from an empty vector every coordinate lies inside the buffer |
| Dmx.RenderBufferFromEmpty | xLights/models/DmxModel.cpp:63-75 | from an empty vector, entry i is node i placed in column i, row 0 |
| Dmx.InitNodes | xLights/models/DmxModel.cpp:212-220 | node i gets absolute channel start plus i times the channels per node, string 0, and its first coordinate at the origin |
| Dmx.InitNodesConsecutive | xLights/models/DmxModel.cpp:212-220 | with one channel per node, consecutive nodes occupy consecutive channels |
| Dmx.DmxModel.InitModel | xLights/models/DmxModel.cpp:201-234 | display type DMX, string type single colour white, `parm1` nodes, node i at the string start plus i times the channel count of a single-colour-white node, buffer `parm1` by 1 as GetBufferSize reports, and every fixture attribute read from the XML node with its default; with one channel per node the channels are consecutive (InitNodesConsecutive) |
| Dmx.DmxModel.InitLayout | xLights/models/DmxModel.cpp:201-222 | the display type, string type, node channels and buffer size that InitModel sets |
| Dmx.DmxModel.ReadFixtureAttributes | xLights/models/DmxModel.cpp:224-233 | every attribute is its XML text (parsed by `atoi`) when present and its default otherwise |
| Dmx.ReadInt | xLights/models/DmxModel.cpp:225-233 | an absent attribute reads as its default |
| Dmx.ReadIntAsWritten | xLights/models/DmxModel.cpp:225-233 | parsing the present text or the decimal default text, as the source does, gives the same integer as reading with an integer default |
| Dmx.DefaultTextsAreDecimal | xLights/models/DmxModel.cpp:225-233 | the default texts "0", "1", "180" and "540" are the decimal forms of the integer defaults |
| Dmx.IntAttributeReads | xLights/models/DmxModel.cpp:225-233 | an integer attribute present in the XML node is read from its own text |
| Dmx.OnPropertyGridChange | xLights/models/DmxModel.cpp:140-199 | exactly the DMX properties are handled, each with refresh bits 1 and 2, and with bit 8 exactly for the channel count; the code is 11 for the channel count and 3 otherwise; the channel count writes `parm1` and an integer property its own attribute, each as the `%d` text of the value; the style writes top view exactly for choice 0; every other property goes to the generic model |
| Dmx.GridChangeReadsBack | xLights/models/DmxModel.cpp:140-199 | the value set in the grid is the value the attributes read back on the next initialisation, and style choice 0 reads back as top view |
| Dmx.ActChanAsWrittenSkipsChannels | xLights/models/DmxModel.cpp:203-213 | with the string type left as it was, an "RGB Nodes" model puts node 1 three channels after the start instead of one |
| PlayList.IsAudio | xSchedule/PlayList/PlayListItemAudio.cpp:178-193 | an extension is audio exactly when it is one of mp3, ogg, mid, au, wav, m4a, wma, m4p |
| PlayList.AudioExtensionShape | xSchedule/PlayList/PlayListItemAudio.cpp:178-193 | an audio extension has two or three characters, with no dot and no upper-case letter |
| PlayList.ExtensionWithDotIsNotAudio | xSchedule/PlayList/PlayListItemAudio.cpp:178-193 | an extension given with its dot is not audio |
| PlayList.UpperCaseExtensionIsNotAudio | xSchedule/PlayList/PlayListItemAudio.cpp:178-193 | the comparison is case-sensitive: an extension with an upper-case letter is not audio |
| PlayList.PlayListItemAudio.GetTitle | xSchedule/PlayList/PlayListItemAudio.cpp:67-70 | the title of an audio item is "Audio" |
| PlayList.FileName | xSchedule/PlayList/PlayListItemAudio.cpp:79-86 | `wxFileName::GetName`: no separator in the result, never longer than the path, and not empty for a path that does not end in a separator; FileNameOfComposedPath recovers the name of `dir/name.ext` |
| PlayList.PlayListItemAudio.ControlsTiming | xSchedule/PlayList/PlayListItemAudio.cpp:110-138 | the item controls timing exactly when its cached flag is set, which FastSetDuration and LoadFiles do for an existing file and nothing clears |
| PlayList.PlayListItemAudio.GetNameNoTime | xSchedule/PlayList/PlayListItemAudio.cpp:77-88 | the name is never empty: the audio file's name without directory and extension, or the title "Audio" when that is empty |
| PlayList.FileNameOfComposedPath | xSchedule/PlayList/PlayListItemAudio.cpp:77-88 | the file name of `dir/name.ext` is `name` |
| PlayList.PlayListItemAudio.constructor | xSchedule/PlayList/PlayListItemAudio.cpp:37-43 | a new item has no file, no duration, no handle and no timing |
| PlayList.PlayListItemAudio.FromNode | xSchedule/PlayList/PlayListItemAudio.cpp:7-21 | the item takes its "AudioFile" attribute, empty when absent, and the duration probed for it |
| PlayList.PlayListItemAudio.FastSetDuration | xSchedule/PlayList/PlayListItemAudio.cpp:100-108 | the duration is the probed length of an existing file and 0 for a missing one; an existing file sets the timing flag and a missing one leaves it |
| PlayList.PlayListItemAudio.SetAudioFile | xSchedule/PlayList/PlayListItemAudio.cpp:90-98 | setting the current path changes nothing; a new path is stored, probed and counted as one change |
| PlayList.PlayListItemAudio.CloseFiles | xSchedule/PlayList/PlayListItemAudio.cpp:169-176 | afterwards no handle is open and none is leaked; without a handle nothing changes |
| PlayList.PlayListItemAudio.LoadFiles | xSchedule/PlayList/PlayListItemAudio.cpp:23-35 | any old handle is released; an existing file gets a new handle with the volume applied when set, the decoder's length as duration and the timing flag; a missing file leaves no handle and the rest unchanged |
| PlayList.PlayListItemAudio.Start | xSchedule/PlayList/PlayListItemAudio.cpp:129-138 | an existing file is loaded and played from 0 for its full length; a missing file leaves no handle |
| PlayList.PlayListItemAudio.Stop | xSchedule/PlayList/PlayListItemAudio.cpp:160-167 | an open handle is told to stop and then released; file, duration, timing flag, change count and volume are unchanged |
| PlayList.PlayListItemAudio.Pause | xSchedule/PlayList/PlayListItemAudio.cpp:145-158 | an open handle receives pause or resume, and its position is kept |
| PlayList.PlayListItemAudio.Suspend | xSchedule/PlayList/PlayListItemAudio.cpp:140-143 | suspending is pausing: the same command reaches the handle |
| PlayList.PlayListItemAudio.Restart | xSchedule/PlayList/PlayListItemAudio.cpp:120-127 | a timing item's handle is stopped and played again from 0; a non-timing item's handle is untouched |
| PlayList.PlayListItemAudio.GetPositionMS | xSchedule/PlayList/PlayListItemAudio.cpp:110-118 | the handle's position when the item is timing and has a handle, 0 otherwise |
| PlayList.PlayListItemAudio.Copy | xSchedule/PlayList/PlayListItemAudio.cpp:45-54 | a fresh item with the same file, duration and timing flag, and no handle of its own |
| PlayList.ProbedDuration | xSchedule/PlayList/PlayListItemAudio.cpp:100-108 | a missing file probes as 0 |
| PlayList.StartMissingFile | xSchedule/PlayList/PlayListItemAudio.cpp:129-138 | starting and stopping an item whose file is missing reports position 0 and duration 0, and leaves no handle open |
| PlayList.StartThenStop | xSchedule/PlayList/PlayListItemAudio.cpp:129-167 | an existing file plays from position 0 and is back at 0 with no handle after stopping; the duration shown before playing is the probed length and the one during playback the decoder's length |

## Left out

- Floating point: angles, scales and coordinates are reals. Rounding of
  `float`/`double` arithmetic is not modelled; the `(int)` casts are.
- Trigonometry (`RenderBuffer::sin`/`cos` with `ToRadians`) and
  `xlColor::ApplyTransparency` are unmodelled functions of the `Renderer`
  parameter. Properties that need real sines state that as a requirement.
- `GetScaleX()`, `GetScaleY()`, the preview size and the screen location
  that give the fixture's size and centre enter as parameters (`dmxSize`,
  `sx`, `sy`).
- `SetNodeCount` and `GetNodeChannelCount` are not part of this model. The
  nodes they create enter `InitModel` as `created`, and the channel count
  is a function parameter.
- `Dmx.OnPropertyGridChange`: the change of the XML node itself,
  `SetFromXml` and the property-grid widgets are not modelled. The model
  returns the attribute, its new text and the refresh code, and the
  read-back is a lemma.
- `SetRenderSize`, the 3D drawing path, model screen-location handling and
  the property-grid construction (`AddTypeProperties`) are outside this
  model.
- `Numeric.Atoi` does not model overflow of out-of-range attribute text.
- Colour equality with black compares red, green and blue only.
- `Dmx.DmxModel.DrawModelOnWindow`: also returns when the pan or tilt
  channel is below 1 (see the findings). The source's code reads node -1
  there.
- `Dmx.DmxModel.InitModel` and `Dmx.DmxModel.InitLayout`: set the string
  type to single colour white before laying out channels (see the
  findings). The source compares instead of assigning.
- `Dmx.DmxModel.InitModel`: the channel count of a single-colour-white
  node is a parameter, so the contract gives node i the channel
  `start + i * count`; consecutive channels follow only for a count of 1.
- The `AudioManager` is a record of the commands it receives and a
  position. Playback time does not advance it, so `Tell` after `Play(0, …)`
  stays 0 until the next command. Decoding, the audio device and threads
  are not modelled.
- `PlayList.PlayListItemAudio.Copy`: the fields of the `PlayListItem` base
  class that `PlayListItem::Copy` copies are not modelled.
- `PlayList.PlayListItemAudio.FromNode`: `PlayListItem::Load`, which reads
  the base class's attributes, is not modelled. The base class starts with
  volume -1 and change count 0.
- `Save`, `Configure`, the settings panel and the `PlayListItem` base class
  beyond the volume and the change counter are outside this model.
- `PlayList.FileName`: only '/' separates directories. Windows separators,
  volumes and the other rules of `wxFileName` are not modelled.
- `PlayList.PlayListItemAudio.ControlsTiming`: it is declared in a header
  that is not part of this model. The model reads the cached flag the
  source keeps in `_controlsTimingCache`.
- The file system is one fixed function (`Media.fileExists` and the two
  length functions), so files do not appear, vanish or change between
  calls; `PlayList.StartThenStop` relies on that.
- Deleting the `AudioManager` is modelled by dropping the reference. A
  ghost count of open handles shows that none is leaked.

## Findings

| source | as written | input that shows it | evidently intended | confidence | as-written member | corrected member |
|---|---|---|---|---|---|---|
| xLights/models/DmxModel.cpp:295-302 | the guard rejects only channels above the node count, then the pan and tilt values are read at `channel - 1` | pan channel 0 with one node: the guard passes and `Nodes[-1]` is read | a pan or tilt channel below 1 also skips drawing | not executed | Dmx.SourceGuardAdmitsChannelZero | Dmx.ChannelsUsable |
| xLights/models/DmxModel.cpp:203 | `StringType==` compares and discards the result, so the string type is not set | a model whose string type was "RGB Nodes": node 1 gets the channel start plus 3 | the string type becomes "Single Color White", one channel per node | not executed | Dmx.ActChanAsWrittenSkipsChannels | Dmx.DmxModel.InitModel |
