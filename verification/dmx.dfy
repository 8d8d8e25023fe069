/** The DMX moving-head fixture model of xLights: how its channels are laid
    out in the render buffer, how it is initialised from its attributes, and
    how one frame of channel values becomes the beam, body and marker geometry
    handed to the drawing accumulator.

    Trigonometry and the transparency rule are not modelled: they enter through
    a `Renderer` value whose functions the code only calls. Floating values
    are modelled as reals; the `(int)` casts of the C++ code are `Trunc`. */
module Dmx {
  import opened Numeric

  type byte = x: int | 0 <= x < 256

  datatype Option<T> = None | Some(value: T)

  /** An xlColor: 8-bit red, green, blue and alpha; alpha defaults to opaque. */
  datatype Color = Color(red: byte, green: byte, blue: byte, alpha: byte)

  const White := Color(255, 255, 255, 255)
  const Black := Color(0, 0, 0, 255)
  const Red := Color(255, 0, 0, 255)
  const BaseGrey := Color(200, 200, 200, 255)

  /** Comparison with xlBLACK looks at the three colour components. */
  predicate IsBlack(c: Color) {
    c.red == 0 && c.green == 0 && c.blue == 0
  }

  /** One coordinate of a node: its cell in the render buffer and its place
      on screen. */
  datatype Coord = Coord(bufX: int, bufY: int, screenX: real, screenY: real)

  /** A node (one DMX channel): its current colour, its absolute channel,
      its string and its coordinates. */
  datatype Node = Node(color: Color, actChan: int, stringNum: int, coords: seq<Coord>)

  /** What the drawing accumulator records: single vertices of the triangle
      list, filled circles, rectangles, and the final submission. */
  datatype DrawItem =
    | Vertex(x: real, y: real, color: Color)
    | Circle(cx: real, cy: real, radius: real, center: Color, edge: Color)
    | Rect(x1: real, y1: real, x2: real, y2: real, color: Color)
    | Finish

  /** The accumulator `va`: an append-only sequence of draw items. */
  class Accumulator {
    var items: seq<DrawItem>

    constructor ()
      ensures items == []
    {
      items := [];
    }

    method AddVertex(x: real, y: real, color: Color)
      modifies this
      ensures items == old(items) + [Vertex(x, y, color)]
    {
      items := items + [Vertex(x, y, color)];
    }

    method AddTrianglesCircle(cx: real, cy: real, radius: real, center: Color, edge: Color)
      modifies this
      ensures items == old(items) + [Circle(cx, cy, radius, center, edge)]
    {
      items := items + [Circle(cx, cy, radius, center, edge)];
    }

    method AddRect(x1: real, y1: real, x2: real, y2: real, color: Color)
      modifies this
      ensures items == old(items) + [Rect(x1, y1, x2, y2, color)]
    {
      items := items + [Rect(x1, y1, x2, y2, color)];
    }

    method Finish()
      modifies this
      ensures items == old(items) + [DrawItem.Finish]
    {
      items := items + [DrawItem.Finish];
    }
  }

  /** The services the drawing code calls but that are not modelled:
      `RenderBuffer::sin`/`cos` of an angle given in degrees (the conversion
      `ToRadians` included) and `ApplyTransparency`. */
  datatype Renderer = Renderer(
    sinDeg: real -> real,
    cosDeg: real -> real,
    applyTransparency: (Color, int) -> Color)

  // ---------------------------------------------------------------------
  // dmxPoint: scale, rotate, translate

  /** The point (x, y) scaled by `scale`, rotated by the angle whose sine and
      cosine are `s` and `c`, and moved to (cx, cy). */
  function Transform(x: real, y: real, cx: int, cy: int, scale: real, s: real, c: real): (real, real) {
    var xs := x * scale;
    var ys := y * scale;
    (xs * c - ys * s + cx as real, xs * s + ys * c + cy as real)
  }

  /** With a true sine/cosine pair the transformed point lies at distance
      `scale` times the original distance from the centre. */
  lemma TransformPreservesDistance(x: real, y: real, cx: int, cy: int, scale: real, s: real, c: real)
    requires s * s + c * c == 1.0
    ensures var p := Transform(x, y, cx, cy, scale, s, c);
            var dx := p.0 - cx as real;
            var dy := p.1 - cy as real;
            dx * dx + dy * dy == scale * scale * (x * x + y * y)
  {
  }

  /** Rotating back by the same angle and undoing the translation gives the
      scaled original point. */
  lemma TransformInverse(x: real, y: real, cx: int, cy: int, scale: real, s: real, c: real)
    requires s * s + c * c == 1.0
    ensures var p := Transform(x, y, cx, cy, scale, s, c);
            var dx := p.0 - cx as real;
            var dy := p.1 - cy as real;
            dx * c + dy * s == x * scale && dy * c - dx * s == y * scale
  {
  }

  /** The `dmxPoint` helper: built from a local point, the centre (taken as
      `int`, so a floating centre is truncated), a scale and an angle, it
      updates its coordinates in place. */
  class DmxPoint {
    var x: real
    var y: real
    const cx: int
    const cy: int
    const scale: real

    constructor (x_: real, y_: real, cx_: int, cy_: int, scale_: real, angle_: real, env: Renderer)
      ensures (x, y) == Transform(x_, y_, cx_, cy_, scale_, env.sinDeg(angle_), env.cosDeg(angle_))
      ensures cx == cx_ && cy == cy_ && scale == scale_
    {
      x, y, cx, cy, scale := x_, y_, cx_, cy_, scale_;
      new;
      var s := env.sinDeg(angle_);
      var c := env.cosDeg(angle_);
      x := x * scale;
      y := y * scale;
      var xnew := x * c - y * s;
      var ynew := x * s + y * c;
      x := xnew + cx as real;
      y := ynew + cy as real;
      assert x == Transform(x_, y_, cx_, cy_, scale_, s, c).0;
      assert y == Transform(x_, y_, cx_, cy_, scale_, s, c).1;
    }
  }

  function PointAt(x: real, y: real, sx: real, sy: real, scale: real, angle: real, env: Renderer): (real, real) {
    Transform(x, y, Trunc(sx), Trunc(sy), scale, env.sinDeg(angle), env.cosDeg(angle))
  }

  // ---------------------------------------------------------------------
  // The decisions of DrawModelOnWindow

  /** The fixture attributes the drawing reads. */
  datatype DmxConfig = DmxConfig(
    dmxStyle: string,
    panChannel: int, panOrient: int, panDegOfRot: int,
    tiltChannel: int, tiltOrient: int, tiltDegOfRot: int,
    redChannel: int, greenChannel: int, blueChannel: int,
    transparency: int, blackTransparency: int)

  const TopStyle := "Moving Head Top"
  const SideStyle := "Moving Head Side"

  /** A channel compared with the node count. The channel is a signed `int`
      and the count a `size_t`, so a negative channel compares as a huge
      unsigned value and also counts as exceeding. */
  predicate ExceedsNodeCount(channel: int, nodeCount: nat) {
    channel < 0 || channel > nodeCount
  }

  /** The guard as the source writes it: drawing aborts when any of the five
      channels exceeds the node count. */
  predicate SourceGuardAborts(cfg: DmxConfig, nodeCount: nat) {
    || ExceedsNodeCount(cfg.panChannel, nodeCount)
    || ExceedsNodeCount(cfg.tiltChannel, nodeCount)
    || ExceedsNodeCount(cfg.redChannel, nodeCount)
    || ExceedsNodeCount(cfg.greenChannel, nodeCount)
    || ExceedsNodeCount(cfg.blueChannel, nodeCount)
  }

  /** The source guard lets pan or tilt channel 0 through, and the pan angle
      is then read from node index -1. */
  lemma SourceGuardAdmitsChannelZero()
    ensures var cfg := DmxConfig(TopStyle, 0, 0, 540, 1, 0, 180, 0, 0, 0, 0, 0);
            !SourceGuardAborts(cfg, 1) && cfg.panChannel - 1 < 0
  {
  }

  /** The guard the drawing uses: the source guard, and in addition pan and
      tilt channels of at least 1, so that every node read is in range. */
  predicate ChannelsUsable(cfg: DmxConfig, nodeCount: nat)
    ensures ChannelsUsable(cfg, nodeCount) ==>
      && 0 <= cfg.panChannel - 1 < nodeCount
      && 0 <= cfg.tiltChannel - 1 < nodeCount
      && (cfg.redChannel > 0 ==> cfg.redChannel - 1 < nodeCount)
      && (cfg.greenChannel > 0 ==> cfg.greenChannel - 1 < nodeCount)
      && (cfg.blueChannel > 0 ==> cfg.blueChannel - 1 < nodeCount)
  {
    !SourceGuardAborts(cfg, nodeCount) && cfg.panChannel >= 1 && cfg.tiltChannel >= 1
  }

  /** The beam colour before the "off" decision: white unless all three
      colour channels are assigned, and then each component is the `red`
      field of the node at that channel. */
  function SampledBeamColor(cfg: DmxConfig, nodes: seq<Node>): Color
    requires ChannelsUsable(cfg, |nodes|)
  {
    if cfg.redChannel > 0 && cfg.greenChannel > 0 && cfg.blueChannel > 0 then
      White.(red := nodes[cfg.redChannel - 1].color.red,
             green := nodes[cfg.greenChannel - 1].color.red,
             blue := nodes[cfg.blueChannel - 1].color.red)
    else White
  }

  /** The pan or tilt angle for an 8-bit channel value. */
  function ChannelAngle(value: byte, degOfRot: int, orient: int): (angle: real)
    ensures value == 0 ==> angle == orient as real
    ensures value == 255 ==> angle == (orient + degOfRot) as real
    ensures degOfRot >= 0 ==> orient as real <= angle <= (orient + degOfRot) as real
  {
    var f := value as real / 255.0;
    assert value == 255 ==> f == 1.0;
    ScaleWithin(f, degOfRot as real);
    f * degOfRot as real + orient as real
  }

  /** A fraction in [0, 1] of a non-negative amount lies between 0 and it. */
  lemma ScaleWithin(f: real, d: real)
    requires 0.0 <= f <= 1.0
    ensures d >= 0.0 ==> 0.0 <= f * d <= d
  {
  }

  /** A larger channel value never gives a smaller angle. */
  lemma ChannelAngleMonotone(v1: byte, v2: byte, degOfRot: int, orient: int)
    requires v1 <= v2 && degOfRot >= 0
    ensures ChannelAngle(v1, degOfRot, orient) <= ChannelAngle(v2, degOfRot, orient)
  {
  }

  /** Turning a pan angle round: subtract 180 from 180 on, add it below. */
  function FlipPan(panAngle: real): (r: real)
    ensures r == panAngle - 180.0 || r == panAngle + 180.0
    ensures r < panAngle <==> panAngle >= 180.0
    ensures 0.0 <= r < 360.0 <==> -180.0 <= panAngle < 540.0
  {
    if panAngle >= 180.0 then panAngle - 180.0 else panAngle + 180.0
  }

  /** Within [0, 360) turning round twice is the identity. */
  lemma FlipPanTwice(panAngle: real)
    requires 0.0 <= panAngle < 360.0
    ensures FlipPan(FlipPan(panAngle)) == panAngle
  {
  }

  /** The flip does not wrap: with the default 540-degree pan range, the
      largest channel value turned round points at 360 degrees. */
  lemma FullPanRangeFlipsToFullTurn()
    ensures ChannelAngle(255, 540, 0) == 540.0 && FlipPan(ChannelAngle(255, 540, 0)) == 360.0
  {
  }

  /** The beam flip: a negative projected tilt length turns the pan round
      and is negated; otherwise both stay as they are. */
  function FlipBeam(panAngle: real, tiltPos: int): (r: (real, int))
    ensures r.1 >= 0
    ensures tiltPos >= 0 ==> r == (panAngle, tiltPos)
    ensures tiltPos < 0 ==> r.1 == -tiltPos && r.0 == FlipPan(panAngle)
  {
    if tiltPos < 0 then (FlipPan(panAngle), -tiltPos) else (panAngle, tiltPos)
  }

  /** Half the 30-degree beam width. */
  const BeamHalfWidth: real := 15.0

  /** The two beam edges: 15 degrees either side, each wrapped by 360 at
      most once (the lower edge only when negative, the upper only when
      strictly above 360). */
  function BeamEdges(angle: real): (r: (real, real))
    ensures r.0 == (if angle - BeamHalfWidth < 0.0 then angle - BeamHalfWidth + 360.0 else angle - BeamHalfWidth)
    ensures r.1 == (if angle + BeamHalfWidth > 360.0 then angle + BeamHalfWidth - 360.0 else angle + BeamHalfWidth)
    ensures 0.0 <= angle <= 360.0 ==> 0.0 <= r.0 < 360.0 && 0.0 < r.1 <= 360.0
  {
    var a1 := angle - 30.0 / 2.0;
    var a2 := angle + 30.0 / 2.0;
    (if a1 < 0.0 then a1 + 360.0 else a1, if a2 > 360.0 then a2 - 360.0 else a2)
  }

  /** With a sine and cosine of period 360 the wrap changes no beam edge. */
  lemma BeamEdgesWrapInvisible(angle: real, env: Renderer)
    requires forall a :: env.sinDeg(a + 360.0) == env.sinDeg(a)
    requires forall a :: env.cosDeg(a + 360.0) == env.cosDeg(a)
    ensures var e := BeamEdges(angle);
            && env.cosDeg(e.0) == env.cosDeg(angle - BeamHalfWidth)
            && env.sinDeg(e.0) == env.sinDeg(angle - BeamHalfWidth)
            && env.cosDeg(e.1) == env.cosDeg(angle + BeamHalfWidth)
            && env.sinDeg(e.1) == env.sinDeg(angle + BeamHalfWidth)
  {
  }

  /** The tilt marker's distance from the centre: the tilt angle's cosine
      times 0.8 of the radius, truncated; negative when the head points
      away. */
  function TiltLength(tiltAngle: real, radius: real, env: Renderer): int {
    Trunc(env.cosDeg(tiltAngle) * radius * 0.8)
  }

  /** Everything DrawModelOnWindow decides before it emits geometry. */
  datatype Decisions = Decisions(
    topView: bool,
    radius: real,
    beamColor: Color,
    beamOff: bool,
    markerColor: Color,
    ccolor: Color,
    baseColor: Color,
    pntColor: Color,
    panAngle: real,
    tiltAngle: real,
    tiltPos: int,
    angle: real,
    angle1: real,
    angle2: real)

  function Decide(cfg: DmxConfig, nodes: seq<Node>, overrideColor: Option<Color>, active: bool,
                  dmxSize: int, env: Renderer): Decisions
    requires ChannelsUsable(cfg, |nodes|)
  {
    var color := if overrideColor.Some? then overrideColor.value else Black;
    var trans := if IsBlack(color) then cfg.blackTransparency else cfg.transparency;
    var topView := cfg.dmxStyle == TopStyle;
    var radius := dmxSize as real / 2.0;
    var sampled := SampledBeamColor(cfg, nodes);
    var beamOff := IsBlack(sampled) || !active;
    var beamColor := if beamOff then White else env.applyTransparency(sampled, trans);
    var markerColor := if beamOff then Black else beamColor;
    var panRaw := ChannelAngle(nodes[cfg.panChannel - 1].color.red, cfg.panDegOfRot, cfg.panOrient);
    var tiltAngle := ChannelAngle(nodes[cfg.tiltChannel - 1].color.red, cfg.tiltDegOfRot, cfg.tiltOrient);
    var flipped := FlipBeam(panRaw, TiltLength(tiltAngle, radius, env));
    var angle := if topView then flipped.0 else tiltAngle;
    var edges := BeamEdges(angle);
    Decisions(topView, radius, beamColor, beamOff, markerColor,
              env.applyTransparency(White, trans), env.applyTransparency(BaseGrey, trans),
              env.applyTransparency(Red, trans),
              flipped.0, tiltAngle, flipped.1, angle, edges.0, edges.1)
  }

  /** The offset of a beam edge's end: the edge angle's cosine and sine
      times the beam length, each truncated. */
  function EdgeEnd(angle: real, beamLength: real, env: Renderer): (int, int) {
    (Trunc(env.cosDeg(angle) * beamLength), Trunc(env.sinDeg(angle) * beamLength))
  }

  /** The beam triangle: the origin, then the two edge ends. */
  function BeamItems(d: Decisions, sx: real, sy: real, env: Renderer): seq<DrawItem> {
    var beamLength := d.radius * 4.0;
    var e1 := EdgeEnd(d.angle1, beamLength, env);
    var e2 := EdgeEnd(d.angle2, beamLength, env);
    var edgeColor := env.applyTransparency(d.beamColor, if d.beamOff then 0 else 100);
    [Vertex(sx, sy, d.beamColor),
     Vertex(sx + e1.0 as real, sy + e1.1 as real, edgeColor),
     Vertex(sx + e2.0 as real, sy + e2.1 as real, edgeColor)]
  }

  function VertexAt(p: (real, real), color: Color): DrawItem {
    Vertex(p.0, p.1, color)
  }

  /** Top view: the head circle, the angle line (two triangles) and the
      tilt marker. */
  function TopViewItems(d: Decisions, sx: real, sy: real, env: Renderer): seq<DrawItem> {
    var scale := d.radius / 12.0;
    var p1 := PointAt(0.0, -1.0, sx, sy, scale, d.angle, env);
    var p2 := PointAt(12.0, -1.0, sx, sy, scale, d.angle, env);
    var p3 := PointAt(12.0, 1.0, sx, sy, scale, d.angle, env);
    var p4 := PointAt(0.0, 1.0, sx, sy, scale, d.angle, env);
    var marker := PointAt(d.tiltPos as real, 0.0, sx, sy, 1.0, d.angle, env);
    [Circle(sx, sy, d.radius, d.ccolor, d.ccolor),
     VertexAt(p1, d.pntColor), VertexAt(p2, d.pntColor), VertexAt(p3, d.pntColor),
     VertexAt(p1, d.pntColor), VertexAt(p3, d.pntColor), VertexAt(p4, d.pntColor),
     Circle(marker.0, marker.1, d.radius * 0.20, d.markerColor, d.markerColor)]
  }

  /** The side-view head: six points around the tilt angle joined by four
      triangles. */
  function SideHeadItems(d: Decisions, sx: real, sy: real, env: Renderer): seq<DrawItem> {
    var scale := d.radius / 12.0;
    var p1 := PointAt(12.0, -13.0, sx, sy, scale, d.angle, env);
    var p2 := PointAt(12.0, 13.0, sx, sy, scale, d.angle, env);
    var p3 := PointAt(-12.0, 10.0, sx, sy, scale, d.angle, env);
    var p4 := PointAt(-15.0, 5.0, sx, sy, scale, d.angle, env);
    var p5 := PointAt(-15.0, -5.0, sx, sy, scale, d.angle, env);
    var p6 := PointAt(-12.0, -10.0, sx, sy, scale, d.angle, env);
    [VertexAt(p1, d.ccolor), VertexAt(p2, d.ccolor), VertexAt(p6, d.ccolor),
     VertexAt(p2, d.ccolor), VertexAt(p3, d.ccolor), VertexAt(p6, d.ccolor),
     VertexAt(p3, d.ccolor), VertexAt(p5, d.ccolor), VertexAt(p6, d.ccolor),
     VertexAt(p3, d.ccolor), VertexAt(p4, d.ccolor), VertexAt(p5, d.ccolor)]
  }

  /** The side-view pan marker: a triangle from the centre along the pan
      angle. */
  function PanMarkerItems(d: Decisions, sx: real, sy: real, env: Renderer): seq<DrawItem> {
    var scale := d.radius / 12.0;
    var p7 := PointAt(7.0, 2.0, sx, sy, scale, d.panAngle, env);
    var p8 := PointAt(7.0, -2.0, sx, sy, scale, d.panAngle, env);
    [Vertex(sx, sy, d.markerColor), VertexAt(p7, d.markerColor), VertexAt(p8, d.markerColor)]
  }

  /** Side view: the head, the base circle and rectangle, and the pan
      marker. */
  function SideViewItems(d: Decisions, sx: real, sy: real, env: Renderer): seq<DrawItem> {
    SideHeadItems(d, sx, sy, env)
    + [Circle(sx, sy, d.radius * 0.6, d.baseColor, d.baseColor),
       Rect(sx - d.radius * 0.6, sy, sx + d.radius * 0.6, sy - d.radius * 2.0, d.baseColor)]
    + PanMarkerItems(d, sx, sy, env)
  }

  /** The geometry of one frame for given decisions: the beam, the view's
      body and the submission. */
  function FrameItems(d: Decisions, sx: real, sy: real, env: Renderer): seq<DrawItem> {
    BeamItems(d, sx, sy, env)
    + (if d.topView then TopViewItems(d, sx, sy, env) else SideViewItems(d, sx, sy, env))
    + [DrawItem.Finish]
  }

  /** Everything one call of DrawModelOnWindow appends to the accumulator. */
  function DrawItems(cfg: DmxConfig, nodes: seq<Node>, overrideColor: Option<Color>, sx: real, sy: real,
                     active: bool, dmxSize: int, env: Renderer): seq<DrawItem>
  {
    if !ChannelsUsable(cfg, |nodes|) then []
    else FrameItems(Decide(cfg, nodes, overrideColor, active, dmxSize, env), sx, sy, env)
  }

  /** The number of single vertices in a list of draw items. */
  function CountVertices(items: seq<DrawItem>): nat {
    if items == [] then 0
    else CountVertices(items[..|items| - 1]) + (if items[|items| - 1].Vertex? then 1 else 0)
  }

  lemma {:induction false} CountVerticesAppend(a: seq<DrawItem>, b: seq<DrawItem>)
    ensures CountVertices(a + b) == CountVertices(a) + CountVertices(b)
  {
    if b == [] {
      assert a + b == a;
    } else {
      CountVerticesAppend(a, b[..|b| - 1]);
      assert (a + b)[..|a + b| - 1] == a + b[..|b| - 1];
    }
  }

  // ---------------------------------------------------------------------
  // Properties of one draw call

  /** A configuration the source guard rejects draws nothing. */
  lemma GuardSkipsDrawing(cfg: DmxConfig, nodes: seq<Node>, overrideColor: Option<Color>, sx: real, sy: real,
                          active: bool, dmxSize: int, env: Renderer)
    requires SourceGuardAborts(cfg, |nodes|)
    ensures DrawItems(cfg, nodes, overrideColor, sx, sy, active, dmxSize, env) == []
  {
  }

  /** The beam colour comes from the nodes' `red` fields exactly when all
      three colour channels are assigned; an inactive or black beam is drawn
      white and "off", and otherwise the marker takes the beam colour. */
  lemma BeamColorChoice(cfg: DmxConfig, nodes: seq<Node>, overrideColor: Option<Color>, active: bool,
                        dmxSize: int, env: Renderer)
    requires ChannelsUsable(cfg, |nodes|)
    ensures var d := Decide(cfg, nodes, overrideColor, active, dmxSize, env);
            var s := SampledBeamColor(cfg, nodes);
            && (cfg.redChannel > 0 && cfg.greenChannel > 0 && cfg.blueChannel > 0 ==>
                  s.red == nodes[cfg.redChannel - 1].color.red
                  && s.green == nodes[cfg.greenChannel - 1].color.red
                  && s.blue == nodes[cfg.blueChannel - 1].color.red)
            && (cfg.redChannel <= 0 || cfg.greenChannel <= 0 || cfg.blueChannel <= 0 ==> s == White)
            && (d.beamOff <==> (IsBlack(s) || !active))
            && (d.beamOff ==> d.beamColor == White && d.markerColor == Black)
            && (!d.beamOff ==> d.markerColor == d.beamColor)
  {
  }

  /** With a colour channel unassigned the beam is white, and so it is "off"
      only when the fixture is inactive. */
  lemma UnassignedColorKeepsBeamOn(cfg: DmxConfig, nodes: seq<Node>, overrideColor: Option<Color>,
                                   dmxSize: int, env: Renderer)
    requires ChannelsUsable(cfg, |nodes|)
    requires cfg.redChannel == 0 || cfg.greenChannel == 0 || cfg.blueChannel == 0
    ensures !Decide(cfg, nodes, overrideColor, true, dmxSize, env).beamOff
    ensures Decide(cfg, nodes, overrideColor, false, dmxSize, env).beamOff
  {
  }

  /** The flip leaves a non-negative tilt length; the governing angle is
      the (possibly flipped) pan angle in top view and the tilt angle in
      side view, and the edges lie 15 degrees either side of it. */
  lemma AngleDecisions(cfg: DmxConfig, nodes: seq<Node>, overrideColor: Option<Color>, active: bool,
                       dmxSize: int, env: Renderer)
    requires ChannelsUsable(cfg, |nodes|)
    ensures var d := Decide(cfg, nodes, overrideColor, active, dmxSize, env);
            var panRaw := ChannelAngle(nodes[cfg.panChannel - 1].color.red, cfg.panDegOfRot, cfg.panOrient);
            var rawPos := TiltLength(d.tiltAngle, d.radius, env);
            && d.tiltAngle == ChannelAngle(nodes[cfg.tiltChannel - 1].color.red, cfg.tiltDegOfRot, cfg.tiltOrient)
            && d.tiltPos >= 0
            && (rawPos < 0 ==> d.tiltPos == -rawPos && d.panAngle == FlipPan(panRaw))
            && (rawPos >= 0 ==> d.tiltPos == rawPos && d.panAngle == panRaw)
            && d.angle == (if cfg.dmxStyle == TopStyle then d.panAngle else d.tiltAngle)
            && (d.angle1 == d.angle - 15.0 || d.angle1 == d.angle + 345.0)
            && (d.angle2 == d.angle + 15.0 || d.angle2 == d.angle - 345.0)
  {
  }

  /** The shape of one frame's geometry for given decisions: the beam
      triangle from the origin, the view's body, the submission. */
  lemma FrameShape(d: Decisions, sx: real, sy: real, env: Renderer)
    ensures var items := FrameItems(d, sx, sy, env);
            && |items| == (if d.topView then 12 else 21)
            && CountVertices(items) == (if d.topView then 9 else 18)
            && items[0] == Vertex(sx, sy, d.beamColor)
            && items[1].Vertex? && items[2].Vertex?
            && items[|items| - 1] == DrawItem.Finish
            && (d.topView ==>
                  items[3] == Circle(sx, sy, d.radius, d.ccolor, d.ccolor)
                  && items[10].Circle? && items[10].center == d.markerColor)
            && (!d.topView ==>
                  items[15].Circle? && items[16].Rect? && items[17] == Vertex(sx, sy, d.markerColor))
  {
    var beam := BeamItems(d, sx, sy, env);
    var body := if d.topView then TopViewItems(d, sx, sy, env) else SideViewItems(d, sx, sy, env);
    CountVerticesAppend(beam + body, [DrawItem.Finish]);
    CountVerticesAppend(beam, body);
    AllVerticesCount(beam);
    NoVerticesCount([DrawItem.Finish]);
    if d.topView {
      CountVerticesTop(body);
    } else {
      CountVerticesSide(body);
    }
  }

  /** The first three items are the beam triangle, starting at the origin;
      top view then draws 12 items of which 9 are vertices, side view 21 of
      which 18 are vertices, and the list always ends with the submission. */
  lemma DrawnGeometryShape(cfg: DmxConfig, nodes: seq<Node>, overrideColor: Option<Color>, sx: real, sy: real,
                           active: bool, dmxSize: int, env: Renderer)
    requires ChannelsUsable(cfg, |nodes|)
    ensures var items := DrawItems(cfg, nodes, overrideColor, sx, sy, active, dmxSize, env);
            var d := Decide(cfg, nodes, overrideColor, active, dmxSize, env);
            && |items| == (if cfg.dmxStyle == TopStyle then 12 else 21)
            && CountVertices(items) == (if cfg.dmxStyle == TopStyle then 9 else 18)
            && items[0] == Vertex(sx, sy, d.beamColor)
            && items[1].Vertex? && items[2].Vertex?
            && items[|items| - 1] == DrawItem.Finish
  {
    var d := Decide(cfg, nodes, overrideColor, active, dmxSize, env);
    assert d.topView == (cfg.dmxStyle == TopStyle);
    FrameShape(d, sx, sy, env);
  }

  /** A circle, six vertices and a circle hold six vertices. */
  lemma CountVerticesTop(body: seq<DrawItem>)
    requires |body| == 8
    requires body[0].Circle? && body[7].Circle?
    requires forall i :: 1 <= i < 7 ==> body[i].Vertex?
    ensures CountVertices(body) == 6
  {
    AllVerticesCount(body[1..7]);
    CountVerticesAppend(body[..1], body[1..7]);
    CountVerticesAppend(body[..7], body[7..]);
    assert body[..7] == body[..1] + body[1..7];
    assert body == body[..7] + body[7..];
    NoVerticesCount(body[..1]);
    NoVerticesCount(body[7..]);
  }

  /** A run of 12 vertices, a circle, a rectangle and 3 vertices holds 15. */
  lemma CountVerticesSide(body: seq<DrawItem>)
    requires |body| == 17
    requires forall i :: 0 <= i < 12 ==> body[i].Vertex?
    requires body[12].Circle? && body[13].Rect?
    requires forall i :: 14 <= i < 17 ==> body[i].Vertex?
    ensures CountVertices(body) == 15
  {
    AllVerticesCount(body[..12]);
    AllVerticesCount(body[14..]);
    CountVerticesAppend(body[..12], body[12..14]);
    CountVerticesAppend(body[..14], body[14..]);
    assert body[..14] == body[..12] + body[12..14];
    assert body == body[..14] + body[14..];
    NoVerticesCount(body[12..14]);
  }

  lemma {:induction false} NoVerticesCount(items: seq<DrawItem>)
    requires forall i :: 0 <= i < |items| ==> !items[i].Vertex?
    ensures CountVertices(items) == 0
  {
    if items != [] {
      NoVerticesCount(items[..|items| - 1]);
    }
  }

  lemma {:induction false} AllVerticesCount(items: seq<DrawItem>)
    requires forall i :: 0 <= i < |items| ==> items[i].Vertex?
    ensures CountVertices(items) == |items|
  {
    if items != [] {
      AllVerticesCount(items[..|items| - 1]);
    }
  }

  // ---------------------------------------------------------------------
  // Render buffer layout

  /** A node whose every coordinate is moved to buffer cell (x, 0). */
  function PlaceNode(n: Node, x: int): (r: Node)
    ensures r.color == n.color && r.actChan == n.actChan && r.stringNum == n.stringNum
    ensures |r.coords| == |n.coords|
    ensures forall c :: 0 <= c < |r.coords| ==>
              r.coords[c] == n.coords[c].(bufX := x, bufY := 0)
  {
    n.(coords := seq(|n.coords|, c requires 0 <= c < |n.coords| => n.coords[c].(bufX := x, bufY := 0)))
  }

  /** The vector InitRenderBufferNodes leaves: one clone of every node is
      appended to `newNodes`, and then the entry at index `cur` (for each
      node index `cur`) is placed in column `cur`. */
  function RenderBufferNodes(newNodes: seq<Node>, nodes: seq<Node>): (r: seq<Node>)
    ensures |r| == |newNodes| + |nodes|
  {
    var all := newNodes + nodes;
    seq(|all|, i requires 0 <= i < |all| => if i < |nodes| then PlaceNode(all[i], i) else all[i])
  }

  /** Starting from an empty vector, entry i is the clone of node i placed
      in column i: every coordinate lies inside the node-count by 1 buffer. */
  lemma RenderBufferFromEmpty(nodes: seq<Node>)
    ensures var r := RenderBufferNodes([], nodes);
            && |r| == |nodes|
            && (forall i :: 0 <= i < |r| ==> r[i] == PlaceNode(nodes[i], i))
            && (forall i, c :: 0 <= i < |r| && 0 <= c < |r[i].coords| ==>
                  0 <= r[i].coords[c].bufX < |nodes| && r[i].coords[c].bufY == 0)
  {
  }

  // ---------------------------------------------------------------------
  // Attributes and the property grid

  /** The fixture attributes InitModel reads from the model's XML node. */
  datatype DmxAttributes = DmxAttributes(
    dmxStyle: string,
    panChannel: int, panOrient: int, panDegOfRot: int,
    tiltChannel: int, tiltOrient: int, tiltDegOfRot: int,
    redChannel: int, greenChannel: int, blueChannel: int)

  /** `GetAttribute(name, default)`. */
  function GetAttribute(xml: map<string, string>, name: string, default: string): string {
    if name in xml then xml[name] else default
  }

  /** An integer attribute: the `atoi` value of its text when present,
      and the default otherwise. */
  function ReadInt(xml: map<string, string>, name: string, default: int): (r: int)
    ensures name !in xml ==> r == default
  {
    if name in xml then Atoi(xml[name]) else default
  }

  /** The source writes the default as text and parses it with the present
      value, `wxAtoi(GetAttribute(name, "<default>"))`; for a default written
      in decimal that is the same integer. */
  lemma ReadIntAsWritten(xml: map<string, string>, name: string, default: int)
    ensures ReadInt(xml, name, default) == Atoi(GetAttribute(xml, name, FormatDecimal(default)))
  {
    AtoiFormatRoundTrip(default);
  }

  function ReadAttributes(xml: map<string, string>): DmxAttributes {
    DmxAttributes(
      GetAttribute(xml, "DmxStyle", TopStyle),
      ReadInt(xml, "DmxPanChannel", 1),
      ReadInt(xml, "DmxPanOrient", 0),
      ReadInt(xml, "DmxPanDegOfRot", 540),
      ReadInt(xml, "DmxTiltChannel", 1),
      ReadInt(xml, "DmxTiltOrient", 0),
      ReadInt(xml, "DmxTiltDegOfRot", 180),
      ReadInt(xml, "DmxRedChannel", 0),
      ReadInt(xml, "DmxGreenChannel", 0),
      ReadInt(xml, "DmxBlueChannel", 0))
  }

  /** The default texts of the source, "0", "1", "180" and "540", are the
      decimal forms of the defaults used here. */
  lemma DefaultTextsAreDecimal()
    ensures FormatDecimal(0) == "0" && FormatDecimal(1) == "1"
    ensures FormatDecimal(180) == "180" && FormatDecimal(540) == "540"
  {
  }

  /** The integer attributes of the fixture. */
  datatype IntKey =
    | PanChannel | PanOrient | PanDegOfRot
    | TiltChannel | TiltOrient | TiltDegOfRot
    | RedChannel | GreenChannel | BlueChannel

  /** The XML attribute, and property, name of each integer attribute. */
  function KeyName(k: IntKey): string {
    match k
    case PanChannel => "DmxPanChannel"
    case PanOrient => "DmxPanOrient"
    case PanDegOfRot => "DmxPanDegOfRot"
    case TiltChannel => "DmxTiltChannel"
    case TiltOrient => "DmxTiltOrient"
    case TiltDegOfRot => "DmxTiltDegOfRot"
    case RedChannel => "DmxRedChannel"
    case GreenChannel => "DmxGreenChannel"
    case BlueChannel => "DmxBlueChannel"
  }

  const IntAttributeNames: set<string> :=
    {"DmxPanChannel", "DmxPanOrient", "DmxPanDegOfRot", "DmxTiltChannel", "DmxTiltOrient",
     "DmxTiltDegOfRot", "DmxRedChannel", "DmxGreenChannel", "DmxBlueChannel"}

  function IntAttribute(a: DmxAttributes, k: IntKey): int {
    match k
    case PanChannel => a.panChannel
    case PanOrient => a.panOrient
    case PanDegOfRot => a.panDegOfRot
    case TiltChannel => a.tiltChannel
    case TiltOrient => a.tiltOrient
    case TiltDegOfRot => a.tiltDegOfRot
    case RedChannel => a.redChannel
    case GreenChannel => a.greenChannel
    case BlueChannel => a.blueChannel
  }

  /** What a property-grid change does: handled with a refresh code and the
      attribute text it writes, or passed on to the generic model. */
  datatype GridChange = Handled(code: bv32, attribute: string, text: string) | Delegated

  /** The names of the properties the DMX model handles itself. */
  const DmxPropertyNames: set<string> := IntAttributeNames + {"DmxStyle", "DmxChannelCount"}

  function OnPropertyGridChange(property: string, value: int): (r: GridChange)
    ensures r.Handled? <==> property in DmxPropertyNames
    ensures r.Handled? ==> (r.code & 3) == 3
    ensures r.Handled? ==> ((r.code & 8) != 0 <==> property == "DmxChannelCount")
    ensures r.Handled? ==> r.code == (if property == "DmxChannelCount" then 11 else 3)
    ensures property == "DmxChannelCount" ==> r == Handled(11, "parm1", FormatDecimal(value))
    ensures property in IntAttributeNames ==> r == Handled(3, property, FormatDecimal(value))
    ensures property == "DmxStyle" ==>
      r.Handled? && r.attribute == "DmxStyle" && r.text == (if value == 0 then TopStyle else SideStyle)
  {
    if property == "DmxStyle" then Handled(3, "DmxStyle", if value != 0 then SideStyle else TopStyle)
    else if property == "DmxChannelCount" then Handled(3 | 0x0008, "parm1", FormatDecimal(value))
    else if property in IntAttributeNames then Handled(3, property, FormatDecimal(value))
    else Delegated
  }

  /** An integer attribute present in the XML is read from its own text. */
  lemma IntAttributeReads(xml: map<string, string>, k: IntKey)
    requires KeyName(k) in xml
    ensures IntAttribute(ReadAttributes(xml), k) == Atoi(xml[KeyName(k)])
  {
  }

  /** A change made in the property grid is what the attributes read back
      on the next initialisation: the integer value itself, or top view
      exactly for style choice 0. */
  lemma GridChangeReadsBack(xml: map<string, string>, k: IntKey, value: int)
    ensures var ch := OnPropertyGridChange(KeyName(k), value);
            ch.Handled? && IntAttribute(ReadAttributes(xml[ch.attribute := ch.text]), k) == value
    ensures var ch := OnPropertyGridChange("DmxStyle", value);
            ch.Handled? && (ReadAttributes(xml[ch.attribute := ch.text]).dmxStyle == TopStyle <==> value == 0)
  {
    var name := KeyName(k);
    assert name in IntAttributeNames;
    var ch := OnPropertyGridChange(name, value);
    assert ch == Handled(3, name, FormatDecimal(value));
    IntAttributeReads(xml[name := ch.text], k);
    AtoiFormatRoundTrip(value);
  }

  // ---------------------------------------------------------------------
  // Initialisation: the node channels

  const SingleColorWhite := "Single Color White"

  /** The absolute channel of node `cur` as the source computes it, with the
      string type left as it was before InitModel (line 203 compares instead
      of assigning). */
  function ActChanAsWritten(startChan: int, cur: nat, stringType: string, nodeChannelCount: string -> nat): int {
    startChan + cur * nodeChannelCount(stringType)
  }

  /** A model whose string type was "RGB Nodes" (three channels per node)
      keeps it, so node 1 lands three channels after the start instead of
      one. */
  lemma ActChanAsWrittenSkipsChannels(startChan: int)
    ensures var cpn := (st: string) => if st == SingleColorWhite then 1 else 3;
            ActChanAsWritten(startChan, 1, "RGB Nodes", cpn) == startChan + 3
            && ActChanAsWritten(startChan, 1, SingleColorWhite, cpn) == startChan + 1
  {
  }

  /** The node as InitModel leaves it: absolute channel from the string
      start, string 0, first coordinate at the origin. */
  function InitNode(n: Node, cur: nat, startChan: int, channelsPerNode: nat): (r: Node)
    requires |n.coords| >= 1
    ensures r.actChan == startChan + cur * channelsPerNode && r.stringNum == 0
    ensures |r.coords| == |n.coords| && r.coords[0] == Coord(0, 0, 0.0, 0.0)
    ensures r.color == n.color && r.coords[1..] == n.coords[1..]
  {
    n.(actChan := startChan + cur * channelsPerNode, stringNum := 0,
       coords := n.coords[0 := Coord(0, 0, 0.0, 0.0)])
  }

  /** With one channel per node the nodes occupy consecutive channels. */
  lemma InitNodesConsecutive(n: Node, m: Node, cur: nat, startChan: int)
    requires |n.coords| >= 1 && |m.coords| >= 1
    ensures InitNode(m, cur + 1, startChan, 1).actChan == InitNode(n, cur, startChan, 1).actChan + 1
  {
  }

  /** The node loop of InitModel: node `i` is given the absolute channel
      `startChan + i * channelsPerNode`, string 0, and its first coordinate
      is reset to the origin. */
  method InitNodes(created: seq<Node>, startChan: int, channelsPerNode: nat) returns (ns: seq<Node>)
    requires forall i :: 0 <= i < |created| ==> |created[i].coords| >= 1
    ensures |ns| == |created|
    ensures forall i :: 0 <= i < |ns| ==> ns[i] == InitNode(created[i], i, startChan, channelsPerNode)
  {
    ns := created;
    var curNode := 0;
    while curNode < |created|
      invariant 0 <= curNode <= |created|
      invariant |ns| == |created|
      invariant forall i :: 0 <= i < |ns| ==>
                  ns[i] == if i < curNode then InitNode(created[i], i, startChan, channelsPerNode) else created[i]
    {
      var n := ns[curNode];
      var first := n.coords[0].(bufX := 0, bufY := 0, screenX := 0.0, screenY := 0.0);
      n := n.(actChan := startChan + curNode * channelsPerNode, stringNum := 0,
              coords := n.coords[0 := first]);
      ns := ns[curNode := n];
      curNode := curNode + 1;
    }
  }

  // ---------------------------------------------------------------------
  // The model object

  class DmxModel {
    var nodes: seq<Node>
    var displayAs: string
    var stringType: string
    var parm1: nat
    var parm2: int
    var parm3: int
    var bufferWi: int
    var bufferHt: int
    var stringStartChan0: int
    var modelXml: map<string, string>

    var dmxStyle: string
    var panChannel: int
    var panOrient: int
    var panDegOfRot: int
    var tiltChannel: int
    var tiltOrient: int
    var tiltDegOfRot: int
    var redChannel: int
    var greenChannel: int
    var blueChannel: int
    var transparency: int
    var blackTransparency: int

    function Attributes(): DmxAttributes
      reads this
    {
      DmxAttributes(dmxStyle, panChannel, panOrient, panDegOfRot, tiltChannel, tiltOrient, tiltDegOfRot,
                    redChannel, greenChannel, blueChannel)
    }

    function Config(): DmxConfig
      reads this
    {
      DmxConfig(dmxStyle, panChannel, panOrient, panDegOfRot, tiltChannel, tiltOrient, tiltDegOfRot,
                redChannel, greenChannel, blueChannel, transparency, blackTransparency)
    }

    /** The render buffer is one cell per node wide and one cell high. */
    function GetBufferSize(): (size: (int, int))
      reads this
      ensures size.0 == |nodes| && size.1 == 1
    {
      (|nodes|, 1)
    }

    /** Appends a clone of every node to `newNodes` and places the entry at
        each node index in the column of that index. */
    method InitRenderBufferNodes(newNodes: seq<Node>) returns (out: seq<Node>, bufferWi: int, bufferHi: int)
      ensures (bufferWi, bufferHi) == GetBufferSize()
      ensures out == RenderBufferNodes(newNodes, nodes)
      ensures newNodes == [] ==> forall i, c :: 0 <= i < |out| && 0 <= c < |out[i].coords| ==>
                0 <= out[i].coords[c].bufX < bufferWi && out[i].coords[c].bufY < bufferHi
    {
      bufferHi := 1;
      bufferWi := |nodes|;
      out := newNodes;
      ghost var all := newNodes + nodes;
      var cur := 0;
      while cur < bufferWi
        invariant 0 <= cur <= bufferWi
        invariant |out| == |newNodes| + cur
        invariant forall i :: 0 <= i < |out| ==> out[i] == (if i < cur then PlaceNode(all[i], i) else all[i])
      {
        out := out + [nodes[cur]];
        var n := out[cur];
        var c := 0;
        while c < |n.coords|
          invariant 0 <= c <= |n.coords|
          invariant n.color == all[cur].color && n.actChan == all[cur].actChan
          invariant n.stringNum == all[cur].stringNum && |n.coords| == |all[cur].coords|
          invariant forall k :: 0 <= k < |n.coords| ==>
                      n.coords[k] == if k < c then all[cur].coords[k].(bufX := cur, bufY := 0) else all[cur].coords[k]
        {
          n := n.(coords := n.coords[c := n.coords[c].(bufX := cur, bufY := 0)]);
          c := c + 1;
        }
        assert n == PlaceNode(all[cur], cur);
        out := out[cur := n];
        cur := cur + 1;
      }
      if newNodes == [] {
        RenderBufferFromEmpty(nodes);
      }
    }

    /** InitModel: a single-colour-white DMX model of `parm1` nodes, one per
        channel, with buffer 1 by `parm1` and the fixture attributes read
        from the XML node with their defaults. The nodes SetNodeCount
        allocates enter as `created`; `nodeChannelCount` stands for
        GetNodeChannelCount. */
    method InitModel(created: seq<Node>, nodeChannelCount: string -> nat)
      requires |created| == parm1
      requires forall i :: 0 <= i < |created| ==> |created[i].coords| >= 1
      modifies this`displayAs, this`stringType, this`parm2, this`parm3, this`nodes, this`bufferHt, this`bufferWi
      modifies this`dmxStyle, this`panChannel, this`panOrient, this`panDegOfRot, this`tiltChannel,
               this`tiltOrient, this`tiltDegOfRot, this`redChannel, this`greenChannel, this`blueChannel
      ensures displayAs == "DMX" && stringType == SingleColorWhite
      ensures parm2 == 1 && parm3 == 1
      ensures |nodes| == parm1 && bufferWi == parm1 && bufferHt == 1
      ensures GetBufferSize() == (bufferWi, bufferHt)
      ensures forall i :: 0 <= i < |nodes| ==>
                nodes[i] == InitNode(created[i], i, stringStartChan0, nodeChannelCount(SingleColorWhite))
      ensures Attributes() == ReadAttributes(modelXml)
    {
      InitLayout(created, nodeChannelCount);
      ReadFixtureAttributes();
    }

    /** The first half of InitModel: display type, string type, node
        channels and buffer size. */
    method InitLayout(created: seq<Node>, nodeChannelCount: string -> nat)
      requires |created| == parm1
      requires forall i :: 0 <= i < |created| ==> |created[i].coords| >= 1
      modifies this`displayAs, this`stringType, this`parm2, this`parm3, this`nodes, this`bufferHt, this`bufferWi
      ensures displayAs == "DMX" && stringType == SingleColorWhite
      ensures parm2 == 1 && parm3 == 1
      ensures |nodes| == parm1 && bufferWi == parm1 && bufferHt == 1
      ensures forall i :: 0 <= i < |nodes| ==>
                nodes[i] == InitNode(created[i], i, stringStartChan0, nodeChannelCount(SingleColorWhite))
    {
      displayAs := "DMX";
      stringType := SingleColorWhite;
      parm2 := 1;
      parm3 := 1;
      var ns := InitNodes(created, stringStartChan0, nodeChannelCount(stringType));
      nodes := ns;
      bufferHt, bufferWi := 1, parm1;
    }

    /** The second half of InitModel: the fixture attributes, each read
        from the XML node with its default, integers through `wxAtoi`. */
    method ReadFixtureAttributes()
      modifies this`dmxStyle, this`panChannel, this`panOrient, this`panDegOfRot, this`tiltChannel,
               this`tiltOrient, this`tiltDegOfRot, this`redChannel, this`greenChannel, this`blueChannel
      ensures Attributes() == ReadAttributes(modelXml)
    {
      var a := ReadAttributes(modelXml);
      dmxStyle := a.dmxStyle;
      panChannel, panOrient, panDegOfRot := a.panChannel, a.panOrient, a.panDegOfRot;
      tiltChannel, tiltOrient, tiltDegOfRot := a.tiltChannel, a.tiltOrient, a.tiltDegOfRot;
      redChannel, greenChannel, blueChannel := a.redChannel, a.greenChannel, a.blueChannel;
      assert Attributes() == a;
    }

    /** DrawModelOnWindow: appends to `va` the geometry of one frame. The
        screen size of the fixture (`GetScaleX() * previewW` cast to int)
        enters as `dmxSize`; `overrideColor` is the optional colour `c`. */
    method DrawModelOnWindow(va: Accumulator, overrideColor: Option<Color>, sx: real, sy: real, active: bool,
                             dmxSize: int, env: Renderer)
      modifies va
      ensures va.items == old(va.items) + DrawItems(Config(), nodes, overrideColor, sx, sy, active, dmxSize, env)
    {
      var cfg := Config();
      var ns := nodes;
      var nodeCount := |ns|;
      if || ExceedsNodeCount(cfg.panChannel, nodeCount)
         || ExceedsNodeCount(cfg.tiltChannel, nodeCount)
         || ExceedsNodeCount(cfg.redChannel, nodeCount)
         || ExceedsNodeCount(cfg.greenChannel, nodeCount)
         || ExceedsNodeCount(cfg.blueChannel, nodeCount)
      {
        return;
      }
      // pan and tilt are read at channel - 1: channel 0 has no node
      if cfg.panChannel < 1 || cfg.tiltChannel < 1 {
        return;
      }
      var d := MakeDecisions(cfg, ns, overrideColor, active, dmxSize, env);
      DrawFrame(va, d, sx, sy, env);
      assert Config() == cfg && nodes == ns;
    }
  }

  /** The decision part of DrawModelOnWindow: colours, the pan and tilt
      angles from their channels, the beam flip and the beam edges. */
  method MakeDecisions(cfg: DmxConfig, nodes: seq<Node>, overrideColor: Option<Color>, active: bool,
                       dmxSize: int, env: Renderer) returns (d: Decisions)
    requires ChannelsUsable(cfg, |nodes|)
    ensures d == Decide(cfg, nodes, overrideColor, active, dmxSize, env)
  {
    var ccolor := White;
    var pntColor := Red;
    var beamColor := White;
    var markerColor := Black;
    var baseColor := BaseGrey;
    var beamOff := false;
    var color := Black;
    if overrideColor.Some? {
      color := overrideColor.value;
    }
    var topView := cfg.dmxStyle == TopStyle;
    var radius := dmxSize as real / 2.0;
    var trans := if IsBlack(color) then cfg.blackTransparency else cfg.transparency;

    if cfg.redChannel > 0 && cfg.greenChannel > 0 && cfg.blueChannel > 0 {
      beamColor := beamColor.(red := nodes[cfg.redChannel - 1].color.red);
      beamColor := beamColor.(green := nodes[cfg.greenChannel - 1].color.red);
      beamColor := beamColor.(blue := nodes[cfg.blueChannel - 1].color.red);
    }
    assert beamColor == SampledBeamColor(cfg, nodes);
    if IsBlack(beamColor) || !active {
      beamColor := White;
      beamOff := true;
    } else {
      beamColor := env.applyTransparency(beamColor, trans);
      markerColor := beamColor;
    }
    ccolor := env.applyTransparency(ccolor, trans);
    baseColor := env.applyTransparency(baseColor, trans);
    pntColor := env.applyTransparency(pntColor, trans);

    var panAngle := ChannelAngle(nodes[cfg.panChannel - 1].color.red, cfg.panDegOfRot, cfg.panOrient);
    var tiltAngle := ChannelAngle(nodes[cfg.tiltChannel - 1].color.red, cfg.tiltDegOfRot, cfg.tiltOrient);

    // flip the beam when its projected length is negative
    var tiltPos := TiltLength(tiltAngle, radius, env);
    ghost var flipped := FlipBeam(panAngle, tiltPos);
    if tiltPos < 0 {
      if panAngle >= 180.0 {
        panAngle := panAngle - 180.0;
      } else {
        panAngle := panAngle + 180.0;
      }
      tiltPos := tiltPos * -1;
    }
    assert (panAngle, tiltPos) == flipped;

    var angle := if topView then panAngle else tiltAngle;
    var beamWidth := 30.0;
    var angle1 := angle - beamWidth / 2.0;
    var angle2 := angle + beamWidth / 2.0;
    if angle1 < 0.0 {
      angle1 := angle1 + 360.0;
    }
    if angle2 > 360.0 {
      angle2 := angle2 - 360.0;
    }
    assert (angle1, angle2) == BeamEdges(angle);
    d := Decisions(topView, radius, beamColor, beamOff, markerColor, ccolor, baseColor, pntColor,
                   panAngle, tiltAngle, tiltPos, angle, angle1, angle2);
  }

  /** The emission part of DrawModelOnWindow: beam, view body, submission. */
  method DrawFrame(va: Accumulator, d: Decisions, sx: real, sy: real, env: Renderer)
    modifies va
    ensures va.items == old(va.items) + FrameItems(d, sx, sy, env)
  {
    DrawBeam(va, d, sx, sy, env);
    if d.topView {
      DrawTopView(va, d, sx, sy, env);
    } else {
      DrawSideView(va, d, sx, sy, env);
    }
    va.Finish();
  }

  /** The light beam: a triangle from the fixture centre to the two edge
      ends, its far vertices drawn fully transparent when the beam is off. */
  method DrawBeam(va: Accumulator, d: Decisions, sx: real, sy: real, env: Renderer)
    modifies va
    ensures va.items == old(va.items) + BeamItems(d, sx, sy, env)
  {
    var beamLength := d.radius * 4.0;
    var e1 := EdgeEnd(d.angle1, beamLength, env);
    var e2 := EdgeEnd(d.angle2, beamLength, env);
    var x1, y1, x2, y2 := e1.0, e1.1, e2.0, e2.1;
    var beamColor := d.beamColor;
    va.AddVertex(sx, sy, beamColor);
    beamColor := env.applyTransparency(beamColor, if d.beamOff then 0 else 100);
    va.AddVertex(sx + x1 as real, sy + y1 as real, beamColor);
    va.AddVertex(sx + x2 as real, sy + y2 as real, beamColor);
  }

  /** Top view: the head circle, the angle line and the tilt marker. */
  method DrawTopView(va: Accumulator, d: Decisions, sx: real, sy: real, env: Renderer)
    modifies va
    ensures va.items == old(va.items) + TopViewItems(d, sx, sy, env)
  {
    var scale := d.radius / 12.0;
    va.AddTrianglesCircle(sx, sy, d.radius, d.ccolor, d.ccolor);

    // draw angle line
    var p1 := new DmxPoint(0.0, -1.0, Trunc(sx), Trunc(sy), scale, d.angle, env);
    var v1 := (p1.x, p1.y);
    var p2 := new DmxPoint(12.0, -1.0, Trunc(sx), Trunc(sy), scale, d.angle, env);
    var v2 := (p2.x, p2.y);
    var p3 := new DmxPoint(12.0, 1.0, Trunc(sx), Trunc(sy), scale, d.angle, env);
    var v3 := (p3.x, p3.y);
    var p4 := new DmxPoint(0.0, 1.0, Trunc(sx), Trunc(sy), scale, d.angle, env);
    var v4 := (p4.x, p4.y);
    AddTriangle(va, v1, v2, v3, d.pntColor);
    AddTriangle(va, v1, v3, v4, d.pntColor);

    // draw tilt marker
    var marker := new DmxPoint(d.tiltPos as real, 0.0, Trunc(sx), Trunc(sy), 1.0, d.angle, env);
    va.AddTrianglesCircle(marker.x, marker.y, d.radius * 0.20, d.markerColor, d.markerColor);
  }

  /** Side view: the head, the base and the pan marker. */
  method DrawSideView(va: Accumulator, d: Decisions, sx: real, sy: real, env: Renderer)
    modifies va
    ensures va.items == old(va.items) + SideViewItems(d, sx, sy, env)
  {
    DrawSideHead(va, d, sx, sy, env);
    // draw base
    va.AddTrianglesCircle(sx, sy, d.radius * 0.6, d.baseColor, d.baseColor);
    va.AddRect(sx - d.radius * 0.6, sy, sx + d.radius * 0.6, sy - d.radius * 2.0, d.baseColor);
    DrawPanMarker(va, d, sx, sy, env);
  }

  method DrawSideHead(va: Accumulator, d: Decisions, sx: real, sy: real, env: Renderer)
    modifies va
    ensures va.items == old(va.items) + SideHeadItems(d, sx, sy, env)
  {
    var scale := d.radius / 12.0;
    var p1 := new DmxPoint(12.0, -13.0, Trunc(sx), Trunc(sy), scale, d.angle, env);
    var v1 := (p1.x, p1.y);
    var p2 := new DmxPoint(12.0, 13.0, Trunc(sx), Trunc(sy), scale, d.angle, env);
    var v2 := (p2.x, p2.y);
    var p3 := new DmxPoint(-12.0, 10.0, Trunc(sx), Trunc(sy), scale, d.angle, env);
    var v3 := (p3.x, p3.y);
    var p4 := new DmxPoint(-15.0, 5.0, Trunc(sx), Trunc(sy), scale, d.angle, env);
    var v4 := (p4.x, p4.y);
    var p5 := new DmxPoint(-15.0, -5.0, Trunc(sx), Trunc(sy), scale, d.angle, env);
    var v5 := (p5.x, p5.y);
    var p6 := new DmxPoint(-12.0, -10.0, Trunc(sx), Trunc(sy), scale, d.angle, env);
    var v6 := (p6.x, p6.y);

    ghost var c := d.ccolor;
    ghost var t1 := [VertexAt(v1, c), VertexAt(v2, c), VertexAt(v6, c)];
    ghost var t2 := [VertexAt(v2, c), VertexAt(v3, c), VertexAt(v6, c)];
    ghost var t3 := [VertexAt(v3, c), VertexAt(v5, c), VertexAt(v6, c)];
    ghost var t4 := [VertexAt(v3, c), VertexAt(v4, c), VertexAt(v5, c)];
    assert SideHeadItems(d, sx, sy, env) == t1 + t2 + t3 + t4;

    ghost var before := va.items;
    AddTriangle(va, v1, v2, v6, d.ccolor);
    AddTriangle(va, v2, v3, v6, d.ccolor);
    AddTriangle(va, v3, v5, v6, d.ccolor);
    AddTriangle(va, v3, v4, v5, d.ccolor);
    assert va.items == before + t1 + t2 + t3 + t4;
  }

  /** Three consecutive `AddVertex` calls: one triangle of the list. */
  method AddTriangle(va: Accumulator, a: (real, real), b: (real, real), c: (real, real), color: Color)
    modifies va
    ensures va.items == old(va.items) + [VertexAt(a, color), VertexAt(b, color), VertexAt(c, color)]
  {
    va.AddVertex(a.0, a.1, color);
    va.AddVertex(b.0, b.1, color);
    va.AddVertex(c.0, c.1, color);
  }

  method DrawPanMarker(va: Accumulator, d: Decisions, sx: real, sy: real, env: Renderer)
    modifies va
    ensures va.items == old(va.items) + PanMarkerItems(d, sx, sy, env)
  {
    var scale := d.radius / 12.0;
    var p7 := new DmxPoint(7.0, 2.0, Trunc(sx), Trunc(sy), scale, d.panAngle, env);
    var p8 := new DmxPoint(7.0, -2.0, Trunc(sx), Trunc(sy), scale, d.panAngle, env);
    va.AddVertex(sx, sy, d.markerColor);
    va.AddVertex(p7.x, p7.y, d.markerColor);
    va.AddVertex(p8.x, p8.y, d.markerColor);
  }
}
