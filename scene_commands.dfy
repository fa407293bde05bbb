/**
 * The calls on the drawing context that draw a scene, element by element, in
 * the order src/lib/mandala-renderer.ts issues them, and what that call
 * sequence guarantees: it starts by clearing the canvas, never clears it
 * again, matches every save() with a restore(), and leaves the drawing state
 * exactly as it found it.
 *
 * Each XDrawn(log, x) is the log after x has been drawn on a context whose log
 * was `log`: the calls are appended one at a time, as the renderer makes them.
 * Each XShift lemma says that this is `log` followed by XDrawn([], x).
 */
module SceneCommands {

  import opened Canvas
  import opened RenderMath
  import opened MandalaScene

  /** A call that only draws: neither save(), restore() nor clearRect(). */
  predicate Plain(c: Cmd) {
    !IsStackOp(c) && !c.ClearRect?
  }

  predicate PlainDrawing(t: seq<Cmd>) {
    forall c :: c in t ==> Plain(c)
  }

  /** No clearRect() anywhere in t. */
  predicate NoClear(t: seq<Cmd>) {
    forall c :: c in t ==> !c.ClearRect?
  }

  lemma PlainIsBalanced(t: seq<Cmd>)
    requires PlainDrawing(t)
    ensures Balanced(t) && NoClear(t)
  {
    StackFreeBalance(t, 0);
  }

  // Regrouping facts for concatenations of calls. The proofs below call them
  // where they regroup a log, so the solver is handed each regrouping instead of
  // searching for it inside long chains of appends.

  lemma Assoc(a: seq<Cmd>, b: seq<Cmd>, c: seq<Cmd>)
    ensures (a + b) + c == a + (b + c)
  {
  }

  lemma NilAppend(t: seq<Cmd>)
    ensures [] + t == t
  {
  }

  lemma Snoc3(log: seq<Cmd>, a: Cmd, b: Cmd, c: Cmd)
    ensures log + [a] + [b] + [c] == log + [a, b, c]
  {
  }

  lemma Snoc4(log: seq<Cmd>, a: Cmd, b: Cmd, c: Cmd, d: Cmd)
    ensures log + [a] + [b] + [c] + [d] == log + [a, b, c, d]
  {
  }

  lemma Snoc5(log: seq<Cmd>, a: Cmd, b: Cmd, c: Cmd, d: Cmd, e: Cmd)
    ensures log + [a] + [b] + [c] + [d] + [e] == log + [a, b, c, d, e]
  {
  }

  lemma Assoc3(a: seq<Cmd>, b: seq<Cmd>, c: seq<Cmd>, d: seq<Cmd>)
    ensures ((a + b) + c) + d == a + ((b + c) + d)
  {
    Assoc(a, b, c);
    Assoc(a, b + c, d);
  }

  lemma Assoc4(a: seq<Cmd>, b: seq<Cmd>, c: seq<Cmd>, d: seq<Cmd>, e: seq<Cmd>)
    ensures (((a + b) + c) + d) + e == a + (((b + c) + d) + e)
  {
    Assoc3(a, b, c, d);
    Assoc(a, ((b + c) + d), e);
  }

  lemma Assoc5(a: seq<Cmd>, b: seq<Cmd>, c: seq<Cmd>, d: seq<Cmd>, e: seq<Cmd>, f: seq<Cmd>)
    ensures ((((a + b) + c) + d) + e) + f == a + ((((b + c) + d) + e) + f)
  {
    Assoc4(a, b, c, d, e);
    Assoc(a, (((b + c) + d) + e), f);
  }

  // ---------------------------------------------------------------------------
  // Building blocks

  /** beginPath(); arc(d.x, d.y, d.radius, 0, Math.PI * 2); fillStyle = paint; fill() */
  function DotDrawn(log: seq<Cmd>, d: Circle, paint: Paint, turn: real): seq<Cmd> {
    log + [BeginPath] + [Arc(d.x, d.y, d.radius, 0.0, turn)] + [SetFillStyle(paint)] + [Fill]
  }

  lemma DotShift(log: seq<Cmd>, d: Circle, paint: Paint, turn: real)
    ensures DotDrawn(log, d, paint, turn) == log + DotDrawn([], d, paint, turn)
    ensures PlainDrawing(DotDrawn([], d, paint, turn))
  {
  }

  /** beginPath(); moveTo(from); lineTo(to); strokeStyle = paint; lineWidth = width; stroke() */
  function LineDrawn(log: seq<Cmd>, s: Segment, paint: Paint, width: real): seq<Cmd> {
    log + [BeginPath] + [MoveTo(s.from.x, s.from.y)] + [LineTo(s.to.x, s.to.y)]
    + [SetStrokeStyle(paint)] + [SetLineWidth(width)] + [Stroke]
  }

  lemma LineShift(log: seq<Cmd>, s: Segment, paint: Paint, width: real)
    ensures LineDrawn(log, s, paint, width) == log + LineDrawn([], s, paint, width)
    ensures PlainDrawing(LineDrawn([], s, paint, width))
  {
  }

  // ---------------------------------------------------------------------------
  // drawPetals

  /** The petal's decorative lines, each stroked one pixel wide. */
  function LinesDrawn(log: seq<Cmd>, ss: seq<Segment>, paint: Paint): seq<Cmd>
    decreases |ss|
  {
    if ss == [] then log else LineDrawn(LinesDrawn(log, ss[..|ss| - 1], paint), ss[|ss| - 1], paint, 1.0)
  }

  lemma {:induction false} LinesShift(log: seq<Cmd>, ss: seq<Segment>, paint: Paint)
    ensures LinesDrawn(log, ss, paint) == log + LinesDrawn([], ss, paint)
    ensures PlainDrawing(LinesDrawn([], ss, paint))
    decreases |ss|
  {
    if ss != [] {
      var init, last := ss[..|ss| - 1], ss[|ss| - 1];
      LinesShift(log, init, paint);
      LinesShift([], init, paint);
      LineShift(LinesDrawn(log, init, paint), last, paint, 1.0);
      LineShift(LinesDrawn([], init, paint), last, paint, 1.0);
      LineShift([], last, paint, 1.0);
      var a, b := LinesDrawn([], init, paint), LineDrawn([], last, paint, 1.0);
      Assoc(log, a, b);
    }
  }

  /** The petal outline: two quadratic curves from the origin, filled with the gradient, stroked in white. */
  function OutlineDrawn(log: seq<Cmd>, p: Petal): seq<Cmd> {
    log + [BeginPath] + [MoveTo(0.0, 0.0)]
    + [QuadraticCurveTo(p.control.x, p.control.y, p.left.x, p.left.y)] + [LineTo(0.0, 0.0)]
    + [QuadraticCurveTo(p.control.x, p.control.y, p.right.x, p.right.y)] + [LineTo(0.0, 0.0)]
    + [SetFillStyle(p.gradient)] + [Fill]
    + [SetStrokeStyle(WhiteHalf)] + [SetLineWidth(1.0)] + [Stroke]
  }

  lemma OutlineShift(log: seq<Cmd>, p: Petal)
    ensures OutlineDrawn(log, p) == log + OutlineDrawn([], p)
    ensures PlainDrawing(OutlineDrawn([], p))
  {
  }

  /** The outline, then, on a petal with extras, its dot and its decorative lines. */
  function PetalDrawn(log: seq<Cmd>, p: Petal, turn: real): seq<Cmd> {
    match p.extras
    case None => OutlineDrawn(log, p)
    case Some(e) => LinesDrawn(DotDrawn(OutlineDrawn(log, p), e.dot, DotWhite, turn), e.lines, e.lineStroke)
  }

  lemma PetalShift(log: seq<Cmd>, p: Petal, turn: real)
    ensures PetalDrawn(log, p, turn) == log + PetalDrawn([], p, turn)
    ensures PlainDrawing(PetalDrawn([], p, turn))
  {
    OutlineShift(log, p);
    OutlineShift([], p);
    if p.extras.Some? {
      var e := p.extras.value;
      var o, o0 := OutlineDrawn(log, p), OutlineDrawn([], p);
      DotShift(o, e.dot, DotWhite, turn);
      DotShift(o0, e.dot, DotWhite, turn);
      DotShift([], e.dot, DotWhite, turn);
      var d, d0 := DotDrawn(o, e.dot, DotWhite, turn), DotDrawn(o0, e.dot, DotWhite, turn);
      LinesShift(d, e.lines, e.lineStroke);
      LinesShift(d0, e.lines, e.lineStroke);
      var x, y := DotDrawn([], e.dot, DotWhite, turn), LinesDrawn([], e.lines, e.lineStroke);
      Assoc3(log, o0, x, y);
    }
  }

  function PetalsDrawn(log: seq<Cmd>, ps: seq<Petal>, turn: real): seq<Cmd>
    decreases |ps|
  {
    if ps == [] then log else PetalDrawn(PetalsDrawn(log, ps[..|ps| - 1], turn), ps[|ps| - 1], turn)
  }

  lemma {:induction false} PetalsShift(log: seq<Cmd>, ps: seq<Petal>, turn: real)
    ensures PetalsDrawn(log, ps, turn) == log + PetalsDrawn([], ps, turn)
    ensures PlainDrawing(PetalsDrawn([], ps, turn))
    decreases |ps|
  {
    if ps != [] {
      var init, last := ps[..|ps| - 1], ps[|ps| - 1];
      PetalsShift(log, init, turn);
      PetalsShift([], init, turn);
      PetalShift(PetalsDrawn(log, init, turn), last, turn);
      PetalShift(PetalsDrawn([], init, turn), last, turn);
      var a, b := PetalsDrawn([], init, turn), PetalDrawn([], last, turn);
      Assoc(log, a, b);
    }
  }

  // ---------------------------------------------------------------------------
  // drawDetailPattern

  function MotifDrawn(log: seq<Cmd>, m: Motif, turn: real): seq<Cmd> {
    match m
    case DetailDot(d, paint) => DotDrawn(log, d, paint, turn)
    case DetailDiamond(c, half, paint) =>
      log + [BeginPath] + [MoveTo(c.x, c.y - half)] + [LineTo(c.x + half, c.y)] + [LineTo(c.x, c.y + half)]
      + [LineTo(c.x - half, c.y)] + [ClosePath] + [SetFillStyle(paint)] + [Fill]
    case DetailRay(s, paint) => LineDrawn(log, s, paint, 2.0)
  }

  lemma MotifShift(log: seq<Cmd>, m: Motif, turn: real)
    ensures MotifDrawn(log, m, turn) == log + MotifDrawn([], m, turn)
    ensures PlainDrawing(MotifDrawn([], m, turn))
  {
    match m
    case DetailDot(d, paint) => DotShift(log, d, paint, turn);
    case DetailDiamond(c, half, paint) =>
    case DetailRay(s, paint) => LineShift(log, s, paint, 2.0);
  }

  function MotifsDrawn(log: seq<Cmd>, ms: seq<Motif>, turn: real): seq<Cmd>
    decreases |ms|
  {
    if ms == [] then log else MotifDrawn(MotifsDrawn(log, ms[..|ms| - 1], turn), ms[|ms| - 1], turn)
  }

  lemma {:induction false} MotifsShift(log: seq<Cmd>, ms: seq<Motif>, turn: real)
    ensures MotifsDrawn(log, ms, turn) == log + MotifsDrawn([], ms, turn)
    ensures PlainDrawing(MotifsDrawn([], ms, turn))
    decreases |ms|
  {
    if ms != [] {
      var init, last := ms[..|ms| - 1], ms[|ms| - 1];
      MotifsShift(log, init, turn);
      MotifsShift([], init, turn);
      MotifShift(MotifsDrawn(log, init, turn), last, turn);
      MotifShift(MotifsDrawn([], init, turn), last, turn);
      var a, b := MotifsDrawn([], init, turn), MotifDrawn([], last, turn);
      Assoc(log, a, b);
    }
  }

  // ---------------------------------------------------------------------------
  // The layers of drawMandala

  /** The layer's inner disc: filled, then outlined in white two pixels wide. */
  function DiscDrawn(log: seq<Cmd>, disc: Circle, fill: Paint, turn: real): seq<Cmd> {
    DotDrawn(log, disc, fill, turn) + [SetStrokeStyle(WhiteHalf)] + [SetLineWidth(2.0)] + [Stroke]
  }

  lemma DiscShift(log: seq<Cmd>, disc: Circle, fill: Paint, turn: real)
    ensures DiscDrawn(log, disc, fill, turn) == log + DiscDrawn([], disc, fill, turn)
    ensures PlainDrawing(DiscDrawn([], disc, fill, turn))
  {
  }

  /** A layer: its petals, its disc, then its motifs. */
  function LayerDrawn(log: seq<Cmd>, L: Layer, turn: real): seq<Cmd> {
    MotifsDrawn(DiscDrawn(PetalsDrawn(log, L.petals, turn), L.disc, L.discFill, turn), L.motifs, turn)
  }

  lemma LayerShift(log: seq<Cmd>, L: Layer, turn: real)
    ensures LayerDrawn(log, L, turn) == log + LayerDrawn([], L, turn)
    ensures PlainDrawing(LayerDrawn([], L, turn))
  {
    PetalsShift(log, L.petals, turn);
    var p, p0 := PetalsDrawn(log, L.petals, turn), PetalsDrawn([], L.petals, turn);
    DiscShift(p, L.disc, L.discFill, turn);
    DiscShift(p0, L.disc, L.discFill, turn);
    DiscShift([], L.disc, L.discFill, turn);
    var d, d0 := DiscDrawn(p, L.disc, L.discFill, turn), DiscDrawn(p0, L.disc, L.discFill, turn);
    MotifsShift(d, L.motifs, turn);
    MotifsShift(d0, L.motifs, turn);
    var x, y := DiscDrawn([], L.disc, L.discFill, turn), MotifsDrawn([], L.motifs, turn);
    Assoc3(log, p0, x, y);
  }

  function LayersDrawn(log: seq<Cmd>, Ls: seq<Layer>, turn: real): seq<Cmd>
    decreases |Ls|
  {
    if Ls == [] then log else LayerDrawn(LayersDrawn(log, Ls[..|Ls| - 1], turn), Ls[|Ls| - 1], turn)
  }

  lemma {:induction false} LayersShift(log: seq<Cmd>, Ls: seq<Layer>, turn: real)
    ensures LayersDrawn(log, Ls, turn) == log + LayersDrawn([], Ls, turn)
    ensures PlainDrawing(LayersDrawn([], Ls, turn))
    decreases |Ls|
  {
    if Ls != [] {
      var init, last := Ls[..|Ls| - 1], Ls[|Ls| - 1];
      LayersShift(log, init, turn);
      LayersShift([], init, turn);
      LayerShift(LayersDrawn(log, init, turn), last, turn);
      LayerShift(LayersDrawn([], init, turn), last, turn);
      var a, b := LayersDrawn([], init, turn), LayerDrawn([], last, turn);
      Assoc(log, a, b);
    }
  }

  // ---------------------------------------------------------------------------
  // drawCentralCircles

  function RingDrawn(log: seq<Cmd>, r: Ring, turn: real): seq<Cmd> {
    DotDrawn(log, Circle(0.0, 0.0, r.radius), r.fill, turn) + [SetStrokeStyle(RingStroke)] + [SetLineWidth(1.0)] + [Stroke]
  }

  lemma RingShift(log: seq<Cmd>, r: Ring, turn: real)
    ensures RingDrawn(log, r, turn) == log + RingDrawn([], r, turn)
    ensures PlainDrawing(RingDrawn([], r, turn))
  {
  }

  function RingsDrawn(log: seq<Cmd>, rs: seq<Ring>, turn: real): seq<Cmd>
    decreases |rs|
  {
    if rs == [] then log else RingDrawn(RingsDrawn(log, rs[..|rs| - 1], turn), rs[|rs| - 1], turn)
  }

  lemma {:induction false} RingsShift(log: seq<Cmd>, rs: seq<Ring>, turn: real)
    ensures RingsDrawn(log, rs, turn) == log + RingsDrawn([], rs, turn)
    ensures PlainDrawing(RingsDrawn([], rs, turn))
    decreases |rs|
  {
    if rs != [] {
      var init, last := rs[..|rs| - 1], rs[|rs| - 1];
      RingsShift(log, init, turn);
      RingsShift([], init, turn);
      RingShift(RingsDrawn(log, init, turn), last, turn);
      RingShift(RingsDrawn([], init, turn), last, turn);
      var a, b := RingsDrawn([], init, turn), RingDrawn([], last, turn);
      Assoc(log, a, b);
    }
  }

  function SpokesDrawn(log: seq<Cmd>, ss: seq<Spoke>): seq<Cmd>
    decreases |ss|
  {
    if ss == [] then log else LineDrawn(SpokesDrawn(log, ss[..|ss| - 1]), ss[|ss| - 1].ray, ss[|ss| - 1].paint, 1.0)
  }

  lemma {:induction false} SpokesShift(log: seq<Cmd>, ss: seq<Spoke>)
    ensures SpokesDrawn(log, ss) == log + SpokesDrawn([], ss)
    ensures PlainDrawing(SpokesDrawn([], ss))
    decreases |ss|
  {
    if ss != [] {
      var init, last := ss[..|ss| - 1], ss[|ss| - 1];
      SpokesShift(log, init);
      SpokesShift([], init);
      LineShift(SpokesDrawn(log, init), last.ray, last.paint, 1.0);
      LineShift(SpokesDrawn([], init), last.ray, last.paint, 1.0);
      LineShift([], last.ray, last.paint, 1.0);
      var a, b := SpokesDrawn([], init), LineDrawn([], last.ray, last.paint, 1.0);
      Assoc(log, a, b);
    }
  }

  /** The centre dot: radius 5, filled white. */
  const CenterDot: Circle := Circle(0.0, 0.0, 5.0)

  /** The rings, the centre dot, then the spokes. */
  function CentralDrawn(log: seq<Cmd>, c: Central, turn: real): seq<Cmd> {
    SpokesDrawn(DotDrawn(RingsDrawn(log, c.rings, turn), CenterDot, CenterWhite, turn), c.spokes)
  }

  lemma CentralShift(log: seq<Cmd>, c: Central, turn: real)
    ensures CentralDrawn(log, c, turn) == log + CentralDrawn([], c, turn)
    ensures PlainDrawing(CentralDrawn([], c, turn))
  {
    RingsShift(log, c.rings, turn);
    var r, r0 := RingsDrawn(log, c.rings, turn), RingsDrawn([], c.rings, turn);
    DotShift(r, CenterDot, CenterWhite, turn);
    DotShift(r0, CenterDot, CenterWhite, turn);
    DotShift([], CenterDot, CenterWhite, turn);
    var d, d0 := DotDrawn(r, CenterDot, CenterWhite, turn), DotDrawn(r0, CenterDot, CenterWhite, turn);
    SpokesShift(d, c.spokes);
    SpokesShift(d0, c.spokes);
    var x, y := DotDrawn([], CenterDot, CenterWhite, turn), SpokesDrawn([], c.spokes);
    Assoc3(log, r0, x, y);
  }

  // ---------------------------------------------------------------------------
  // Overlays

  /** beginPath(); arc(c.x, c.y, radius, 0, Math.PI * 2); stroke() */
  function CircleOutlineDrawn(log: seq<Cmd>, c: Point, radius: real, turn: real): seq<Cmd> {
    log + [BeginPath] + [Arc(c.x, c.y, radius, 0.0, turn)] + [Stroke]
  }

  lemma CircleOutlineShift(log: seq<Cmd>, c: Point, radius: real, turn: real)
    ensures CircleOutlineDrawn(log, c, radius, turn) == log + CircleOutlineDrawn([], c, radius, turn)
    ensures PlainDrawing(CircleOutlineDrawn([], c, radius, turn))
  {
  }

  /** One outlined circle of radius `radius` around each centre. */
  function OutlinesDrawn(log: seq<Cmd>, centers: seq<Point>, radius: real, turn: real): seq<Cmd>
    decreases |centers|
  {
    if centers == [] then log
    else CircleOutlineDrawn(OutlinesDrawn(log, centers[..|centers| - 1], radius, turn), centers[|centers| - 1], radius, turn)
  }

  lemma {:induction false} OutlinesShift(log: seq<Cmd>, centers: seq<Point>, radius: real, turn: real)
    ensures OutlinesDrawn(log, centers, radius, turn) == log + OutlinesDrawn([], centers, radius, turn)
    ensures PlainDrawing(OutlinesDrawn([], centers, radius, turn))
    decreases |centers|
  {
    if centers != [] {
      var init, last := centers[..|centers| - 1], centers[|centers| - 1];
      OutlinesShift(log, init, radius, turn);
      OutlinesShift([], init, radius, turn);
      CircleOutlineShift(OutlinesDrawn(log, init, radius, turn), last, radius, turn);
      CircleOutlineShift(OutlinesDrawn([], init, radius, turn), last, radius, turn);
      var a, b := OutlinesDrawn([], init, radius, turn), CircleOutlineDrawn([], last, radius, turn);
      Assoc(log, a, b);
    }
  }

  /** lineTo each of the points in turn. */
  function LineTosDrawn(log: seq<Cmd>, ps: seq<Point>): seq<Cmd>
    decreases |ps|
  {
    if ps == [] then log else LineTosDrawn(log, ps[..|ps| - 1]) + [LineTo(ps[|ps| - 1].x, ps[|ps| - 1].y)]
  }

  lemma {:induction false} LineTosShift(log: seq<Cmd>, ps: seq<Point>)
    ensures LineTosDrawn(log, ps) == log + LineTosDrawn([], ps)
    ensures PlainDrawing(LineTosDrawn([], ps))
    decreases |ps|
  {
    if ps != [] {
      LineTosShift(log, ps[..|ps| - 1]);
      LineTosShift([], ps[..|ps| - 1]);
      var a, b := LineTosDrawn([], ps[..|ps| - 1]), [LineTo(ps[|ps| - 1].x, ps[|ps| - 1].y)];
      Assoc(log, a, b);
    }
  }

  /** moveTo the first point, then lineTo the rest; nothing for no points. */
  function PolylineDrawn(log: seq<Cmd>, ps: seq<Point>): seq<Cmd> {
    if |ps| > 0 then LineTosDrawn(log + [MoveTo(ps[0].x, ps[0].y)], ps[1..]) else log
  }

  lemma PolylineShift(log: seq<Cmd>, ps: seq<Point>)
    ensures PolylineDrawn(log, ps) == log + PolylineDrawn([], ps)
    ensures PlainDrawing(PolylineDrawn([], ps))
  {
    if |ps| > 0 {
      var m := [MoveTo(ps[0].x, ps[0].y)];
      LineTosShift(log + m, ps[1..]);
      LineTosShift([] + m, ps[1..]);
      Assoc(log, m, LineTosDrawn([], ps[1..]));
    }
  }

  /** beginPath(); arc(c.x, c.y, c.radius, 0, Math.PI * 2); stroke(); fillStyle = tint; fill() */
  function FractalCircleDrawn(log: seq<Cmd>, c: Circle, turn: real): seq<Cmd> {
    log + [BeginPath] + [Arc(c.x, c.y, c.radius, 0.0, turn)] + [Stroke] + [SetFillStyle(FractalFill)] + [Fill]
  }

  lemma FractalCircleShift(log: seq<Cmd>, c: Circle, turn: real)
    ensures FractalCircleDrawn(log, c, turn) == log + FractalCircleDrawn([], c, turn)
    ensures PlainDrawing(FractalCircleDrawn([], c, turn))
  {
  }

  /** Each circle outlined, then filled with a faint tint. */
  function FractalCirclesDrawn(log: seq<Cmd>, cs: seq<Circle>, turn: real): seq<Cmd>
    decreases |cs|
  {
    if cs == [] then log else FractalCircleDrawn(FractalCirclesDrawn(log, cs[..|cs| - 1], turn), cs[|cs| - 1], turn)
  }

  lemma {:induction false} FractalCirclesShift(log: seq<Cmd>, cs: seq<Circle>, turn: real)
    ensures FractalCirclesDrawn(log, cs, turn) == log + FractalCirclesDrawn([], cs, turn)
    ensures PlainDrawing(FractalCirclesDrawn([], cs, turn))
    decreases |cs|
  {
    if cs != [] {
      var init, last := cs[..|cs| - 1], cs[|cs| - 1];
      FractalCirclesShift(log, init, turn);
      FractalCirclesShift([], init, turn);
      FractalCircleShift(FractalCirclesDrawn(log, init, turn), last, turn);
      FractalCircleShift(FractalCirclesDrawn([], init, turn), last, turn);
      var a, b := FractalCirclesDrawn([], init, turn), FractalCircleDrawn([], last, turn);
      Assoc(log, a, b);
    }
  }

  /** drawFlowerOfLifeOverlay: gold outlines of radius circleRadius around the centres, inside save()/restore(). */
  function FlowerDrawn(log: seq<Cmd>, circleRadius: real, centers: seq<Point>, turn: real): seq<Cmd> {
    OutlinesDrawn(log + [Save] + [SetGlobalCompositeOperation("source-over")] + [SetStrokeStyle(FlowerStroke)] + [SetLineWidth(2.0)],
                  centers, circleRadius, turn)
    + [Restore]
  }

  /** drawGoldenSpiral: one glowing gold path through the points, inside save()/restore(). */
  function SpiralDrawn(log: seq<Cmd>, points: seq<Point>): seq<Cmd> {
    PolylineDrawn(log + [Save] + [SetStrokeStyle(SpiralStroke)] + [SetLineWidth(3.0)] + [SetShadowColor(SpiralGlow)]
                  + [SetShadowBlur(10.0)] + [BeginPath], points)
    + [Stroke] + [Restore]
  }

  /** drawFractalOverlay: every circle outlined in cyan and tinted, inside save()/restore(). */
  function FractalDrawn(log: seq<Cmd>, circles: seq<Circle>, turn: real): seq<Cmd> {
    FractalCirclesDrawn(log + [Save] + [SetStrokeStyle(FractalStroke)] + [SetLineWidth(1.5)], circles, turn) + [Restore]
  }

  function OverlayDrawn(log: seq<Cmd>, o: Overlay, turn: real): seq<Cmd> {
    match o
    case FlowerOverlay(circleRadius, _, centers) => FlowerDrawn(log, circleRadius, centers, turn)
    case SpiralOverlay(_, _, points) => SpiralDrawn(log, points)
    case FractalOverlay(_, _, _, circles) => FractalDrawn(log, circles, turn)
  }

  function OverlaysDrawn(log: seq<Cmd>, os: seq<Overlay>, turn: real): seq<Cmd>
    decreases |os|
  {
    if os == [] then log else OverlayDrawn(OverlaysDrawn(log, os[..|os| - 1], turn), os[|os| - 1], turn)
  }

  /** Drawing one more overlay appends its calls. */
  lemma OverlaysSnoc(log: seq<Cmd>, os: seq<Overlay>, o: Overlay, turn: real)
    ensures OverlaysDrawn(log, os + [o], turn) == OverlayDrawn(OverlaysDrawn(log, os, turn), o, turn)
  {
    assert (os + [o])[..|os|] == os;
  }

  /** save(); body; restore() around a plain body is balanced and gives any drawing state back. */
  lemma WrapRestores(g: Gfx, body: seq<Cmd>)
    requires PlainDrawing(body)
    ensures Balanced([Save] + body + [Restore]) && NoClear([Save] + body + [Restore])
    ensures Exec(g, [Save] + body + [Restore]) == g
  {
    PlainIsBalanced(body);
    BalancedWrap(body);
    ExecWrapRestores(g, body);
  }

  /**
   * The flower of life saves the drawing state first and restores it last, so
   * the compositing, stroke and line width it sets do not leak into what is
   * drawn after it.
   */
  lemma FlowerRestores(log: seq<Cmd>, g: Gfx, circleRadius: real, centers: seq<Point>, turn: real)
    ensures FlowerDrawn(log, circleRadius, centers, turn) == log + FlowerDrawn([], circleRadius, centers, turn)
    ensures var t := FlowerDrawn([], circleRadius, centers, turn);
            Balanced(t) && NoClear(t) && Exec(g, t) == g
  {
    var style := [SetGlobalCompositeOperation("source-over"), SetStrokeStyle(FlowerStroke), SetLineWidth(2.0)];
    var w := [Save] + style;
    Snoc4(log, Save, SetGlobalCompositeOperation("source-over"), SetStrokeStyle(FlowerStroke), SetLineWidth(2.0));
    Snoc4([], Save, SetGlobalCompositeOperation("source-over"), SetStrokeStyle(FlowerStroke), SetLineWidth(2.0));
    assert [Save, SetGlobalCompositeOperation("source-over"), SetStrokeStyle(FlowerStroke), SetLineWidth(2.0)] == w;
    NilAppend(w);
    OutlinesShift(log + w, centers, circleRadius, turn);
    OutlinesShift(w, centers, circleRadius, turn);
    var b := OutlinesDrawn([], centers, circleRadius, turn);
    assert FlowerDrawn(log, circleRadius, centers, turn) == ((log + w) + b) + [Restore];
    assert FlowerDrawn([], circleRadius, centers, turn) == (w + b) + [Restore];
    Assoc3(log, w, b, [Restore]);
    Assoc([Save], style, b);
    WrapRestores(g, style + b);
  }

  /** The golden spiral saves first and restores last: its stroke, width and glow do not leak. */
  lemma SpiralRestores(log: seq<Cmd>, g: Gfx, points: seq<Point>)
    ensures SpiralDrawn(log, points) == log + SpiralDrawn([], points)
    ensures var t := SpiralDrawn([], points);
            Balanced(t) && NoClear(t) && Exec(g, t) == g
  {
    var style := [SetStrokeStyle(SpiralStroke), SetLineWidth(3.0), SetShadowColor(SpiralGlow), SetShadowBlur(10.0), BeginPath];
    var w := [Save] + style;
    Snoc5(log + [Save], SetStrokeStyle(SpiralStroke), SetLineWidth(3.0), SetShadowColor(SpiralGlow), SetShadowBlur(10.0), BeginPath);
    Snoc5([] + [Save], SetStrokeStyle(SpiralStroke), SetLineWidth(3.0), SetShadowColor(SpiralGlow), SetShadowBlur(10.0), BeginPath);
    Assoc(log, [Save], style);
    NilAppend([Save]);
    PolylineShift(log + w, points);
    PolylineShift(w, points);
    var b := PolylineDrawn([], points);
    assert SpiralDrawn(log, points) == (((log + w) + b) + [Stroke]) + [Restore];
    assert SpiralDrawn([], points) == ((w + b) + [Stroke]) + [Restore];
    Assoc4(log, w, b, [Stroke], [Restore]);
    Assoc3([Save], style, b, [Stroke]);
    WrapRestores(g, (style + b) + [Stroke]);
  }

  /** The fractal overlay saves first and restores last: its stroke, width and fill do not leak. */
  lemma FractalRestores(log: seq<Cmd>, g: Gfx, circles: seq<Circle>, turn: real)
    ensures FractalDrawn(log, circles, turn) == log + FractalDrawn([], circles, turn)
    ensures var t := FractalDrawn([], circles, turn);
            Balanced(t) && NoClear(t) && Exec(g, t) == g
  {
    var style := [SetStrokeStyle(FractalStroke), SetLineWidth(1.5)];
    var w := [Save] + style;
    Snoc3(log, Save, SetStrokeStyle(FractalStroke), SetLineWidth(1.5));
    Snoc3([], Save, SetStrokeStyle(FractalStroke), SetLineWidth(1.5));
    assert [Save, SetStrokeStyle(FractalStroke), SetLineWidth(1.5)] == w;
    NilAppend(w);
    FractalCirclesShift(log + w, circles, turn);
    FractalCirclesShift(w, circles, turn);
    var b := FractalCirclesDrawn([], circles, turn);
    assert FractalDrawn(log, circles, turn) == ((log + w) + b) + [Restore];
    assert FractalDrawn([], circles, turn) == (w + b) + [Restore];
    Assoc3(log, w, b, [Restore]);
    Assoc([Save], style, b);
    WrapRestores(g, style + b);
  }

  /**
   * Every overlay saves the drawing state first and restores it last:
   * replaying it from any state gives that state back.
   */
  lemma OverlayRestores(log: seq<Cmd>, g: Gfx, o: Overlay, turn: real)
    ensures OverlayDrawn(log, o, turn) == log + OverlayDrawn([], o, turn)
    ensures var t := OverlayDrawn([], o, turn);
            Balanced(t) && NoClear(t) && Exec(g, t) == g
  {
    match o
    case FlowerOverlay(circleRadius, _, centers) => FlowerRestores(log, g, circleRadius, centers, turn);
    case SpiralOverlay(_, _, points) => SpiralRestores(log, g, points);
    case FractalOverlay(_, _, _, circles) => FractalRestores(log, g, circles, turn);
  }

  lemma {:induction false} OverlaysRestore(log: seq<Cmd>, g: Gfx, os: seq<Overlay>, turn: real)
    ensures OverlaysDrawn(log, os, turn) == log + OverlaysDrawn([], os, turn)
    ensures var t := OverlaysDrawn([], os, turn);
            Balanced(t) && NoClear(t) && Exec(g, t) == g
    decreases |os|
  {
    if os == [] {
      assert Balance([], 0) == Some(0);
    } else {
      var init, last := os[..|os| - 1], os[|os| - 1];
      OverlaysRestore(log, g, init, turn);
      OverlaysRestore([], g, init, turn);
      var a, b := OverlaysDrawn([], init, turn), OverlayDrawn([], last, turn);
      OverlayRestores(OverlaysDrawn(log, init, turn), g, last, turn);
      OverlayRestores(a, g, last, turn);
      Assoc(log, a, b);
      BalancedConcat(a, b);
      ExecAppend(g, a, b);
    }
  }

  // ---------------------------------------------------------------------------
  // drawMandala

  /** Clear the canvas, save the state, move the origin to the centre and rotate. */
  function PrologueDrawn(log: seq<Cmd>, s: Scene): seq<Cmd> {
    log + [ClearRect(0.0, 0.0, s.width, s.height)] + [Save] + [Translate(Half(s.width), Half(s.height))] + [Rotate(s.rotation)]
  }

  /** The prologue, the layers, the centre, the overlays, and the closing restore(). */
  function SceneDrawn(log: seq<Cmd>, s: Scene): seq<Cmd> {
    OverlaysDrawn(CentralDrawn(LayersDrawn(PrologueDrawn(log, s), s.layers, s.turn), s.central, s.turn), s.overlays, s.turn)
    + [Restore]
  }

  /** The calls of one render pass of s on a fresh log. */
  function SceneCmds(s: Scene): seq<Cmd> {
    SceneDrawn([], s)
  }

  /** Everything a render pass draws in the centred, rotated frame. */
  function BodyCmds(s: Scene): seq<Cmd> {
    (LayersDrawn([], s.layers, s.turn) + CentralDrawn([], s.central, s.turn)) + OverlaysDrawn([], s.overlays, s.turn)
  }

  /** The prologue, the layers, the centre and the overlays, each appended in turn. */
  lemma SceneParts(log: seq<Cmd>, s: Scene)
    ensures var p0 := [ClearRect(0.0, 0.0, s.width, s.height), Save, Translate(Half(s.width), Half(s.height)), Rotate(s.rotation)];
            SceneDrawn(log, s) == ((((log + p0) + LayersDrawn([], s.layers, s.turn)) + CentralDrawn([], s.central, s.turn))
                                   + OverlaysDrawn([], s.overlays, s.turn)) + [Restore]
  {
    var L, C := LayersDrawn([], s.layers, s.turn), CentralDrawn([], s.central, s.turn);
    var p0 := [ClearRect(0.0, 0.0, s.width, s.height), Save, Translate(Half(s.width), Half(s.height)), Rotate(s.rotation)];
    Snoc4(log, ClearRect(0.0, 0.0, s.width, s.height), Save, Translate(Half(s.width), Half(s.height)), Rotate(s.rotation));
    assert PrologueDrawn(log, s) == log + p0;
    LayersShift(log + p0, s.layers, s.turn);
    CentralShift((log + p0) + L, s.central, s.turn);
    OverlaysRestore(((log + p0) + L) + C, Fresh, s.overlays, s.turn);
  }

  /** A render pass appends its calls to the log, whatever the log already holds. */
  lemma SceneShift(log: seq<Cmd>, s: Scene)
    ensures SceneDrawn(log, s) == log + SceneCmds(s)
    ensures SceneCmds(s) == [ClearRect(0.0, 0.0, s.width, s.height), Save, Translate(Half(s.width), Half(s.height)), Rotate(s.rotation)]
                            + BodyCmds(s) + [Restore]
  {
    var L, C, O := LayersDrawn([], s.layers, s.turn), CentralDrawn([], s.central, s.turn), OverlaysDrawn([], s.overlays, s.turn);
    var p0 := [ClearRect(0.0, 0.0, s.width, s.height), Save, Translate(Half(s.width), Half(s.height)), Rotate(s.rotation)];
    SceneParts(log, s);
    SceneParts([], s);
    NilAppend(p0);
    Assoc5(log, p0, L, C, O, [Restore]);
    Assoc3(p0, L, C, O);
  }

  lemma BodyBalanced(s: Scene)
    ensures Balanced(BodyCmds(s)) && NoClear(BodyCmds(s))
  {
    var L, C, O := LayersDrawn([], s.layers, s.turn), CentralDrawn([], s.central, s.turn), OverlaysDrawn([], s.overlays, s.turn);
    LayersShift([], s.layers, s.turn);
    CentralShift([], s.central, s.turn);
    PlainIsBalanced(L + C);
    OverlaysRestore([], Fresh, s.overlays, s.turn);
    BalancedConcat(L + C, O);
  }

  /** The frame of a render pass around a balanced body that never clears. */
  lemma FrameShape(w: real, h: real, a: real, body: seq<Cmd>)
    requires Balanced(body) && NoClear(body)
    ensures var r := [ClearRect(0.0, 0.0, w, h), Save, Translate(Half(w), Half(h)), Rotate(a)] + body + [Restore];
            && |r| >= 5
            && r[0] == ClearRect(0.0, 0.0, w, h)
            && r[1] == Save && r[2] == Translate(Half(w), Half(h)) && r[3] == Rotate(a)
            && r[|r| - 1] == Restore
            && (forall i :: 1 <= i < |r| ==> !r[i].ClearRect?)
            && Balanced(r)
  {
    var r := [ClearRect(0.0, 0.0, w, h), Save, Translate(Half(w), Half(h)), Rotate(a)] + body + [Restore];
    var moves := [Translate(Half(w), Half(h)), Rotate(a)];
    var middle := moves + body;
    StackFreeBalance(moves, 0);
    BalancedConcat(moves, body);
    BalancedWrap(middle);
    assert r == [ClearRect(0.0, 0.0, w, h)] + ([Save] + middle + [Restore]);
    BalanceAppend([ClearRect(0.0, 0.0, w, h)], [Save] + middle + [Restore], 0);
    forall i | 1 <= i < |r|
      ensures !r[i].ClearRect?
    {
      assert r[i] in ([Save] + middle + [Restore]) by {
        assert r[i] == ([Save] + middle + [Restore])[i - 1];
      }
    }
  }

  /** Replaying the frame of a render pass around a balanced body gives the drawing state back. */
  lemma FrameRestores(g: Gfx, w: real, h: real, a: real, body: seq<Cmd>)
    requires Balanced(body)
    ensures Exec(g, [ClearRect(0.0, 0.0, w, h), Save, Translate(Half(w), Half(h)), Rotate(a)] + body + [Restore]) == g
  {
    var clear := [ClearRect(0.0, 0.0, w, h)];
    var moves := [Translate(Half(w), Half(h)), Rotate(a)];
    var middle := moves + body;
    StackFreeBalance(moves, 0);
    BalancedConcat(moves, body);
    assert [ClearRect(0.0, 0.0, w, h), Save, Translate(Half(w), Half(h)), Rotate(a)] + body + [Restore]
           == clear + ([Save] + middle + [Restore]);
    ExecAppend(g, clear, [Save] + middle + [Restore]);
    assert Exec(g, clear) == g;
    ExecWrapRestores(g, middle);
  }

  /**
   * A render pass starts with clearRect(0, 0, width, height), then save(),
   * translate(width / 2, height / 2) and rotate(rotation); it ends with
   * restore(); it never clears the canvas again, and its saves and restores
   * match up.
   */
  lemma SceneShape(s: Scene)
    ensures var r := SceneCmds(s);
            && |r| >= 5
            && r[0] == ClearRect(0.0, 0.0, s.width, s.height)
            && r[1] == Save && r[2] == Translate(Half(s.width), Half(s.height)) && r[3] == Rotate(s.rotation)
            && r[|r| - 1] == Restore
            && (forall i :: 1 <= i < |r| ==> !r[i].ClearRect?)
            && Balanced(r)
  {
    SceneShift([], s);
    BodyBalanced(s);
    FrameShape(s.width, s.height, s.rotation, BodyCmds(s));
  }

  /**
   * A render pass leaves the drawing state as it found it: styles, shadow,
   * compositing, transform and the stack of saved states are all back.
   */
  lemma SceneRestoresState(g: Gfx, s: Scene)
    ensures Exec(g, SceneCmds(s)) == g
  {
    SceneShift([], s);
    BodyBalanced(s);
    FrameRestores(g, s.width, s.height, s.rotation, BodyCmds(s));
  }
}
