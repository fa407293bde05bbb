/**
 * What one render pass of src/lib/mandala-renderer.ts draws, as values: the
 * petals, discs and motifs of every layer, the central rings and spokes and the
 * optional overlays, each with the coordinates and paints the renderer computes.
 * The commands that draw a scene are in module SceneCommands; the procedures that
 * issue them, one call at a time, are in module MandalaRenderer.
 */
module MandalaScene {

  import opened Canvas
  import opened RenderMath

  // ---------------------------------------------------------------------------
  // Paints, as the renderer writes them

  /** "rgba(255, 255, 255, 0.5)": petal outlines and layer discs */
  const WhiteHalf: Paint := Rgba(255, 255, 255, 0.5)
  /** "rgba(255, 255, 255, 0.8)": the dot on each large petal */
  const DotWhite: Paint := Rgba(255, 255, 255, 0.8)
  /** "rgba(255, 255, 255, 0.3)": outline of the central rings */
  const RingStroke: Paint := Rgba(255, 255, 255, 0.3)
  /** "white": the centre dot */
  const CenterWhite: Paint := Named("white")
  /** "rgba(255, 215, 0, 0.5)": flower-of-life circles */
  const FlowerStroke: Paint := Rgba(255, 215, 0, 0.5)
  /** "rgba(255, 215, 0, 0.8)": golden spiral, with a "rgba(255, 215, 0, 0.5)" glow */
  const SpiralStroke: Paint := Rgba(255, 215, 0, 0.8)
  const SpiralGlow: Paint := Rgba(255, 215, 0, 0.5)
  /** "rgba(100, 200, 255, 0.7)" outlines and "rgba(100, 200, 255, 0.1)" fill of fractal circles */
  const FractalStroke: Paint := Rgba(100, 200, 255, 0.7)
  const FractalFill: Paint := Rgba(100, 200, 255, 0.1)

  /**
   * The radial gradient each petal of a layer is filled with: from corInterna
   * at radius rInt * 0.2 to corExterna at rExt, both hsl(hue, 70%, 50%).
   */
  function PetalGradient(rExt: real, rInt: real, innerHue: real, outerHue: real): Paint {
    RadialGradient(0.0, 0.0, rInt * 0.2, 0.0, 0.0, rExt, Hsl(innerHue, 70, 50), Hsl(outerHue, 70, 50))
  }

  /** hsla(parseInt(corInterna.slice(4)) + 30, 80%, 60%, 0.4): the petal's decorative lines */
  function LinePaint(innerHue: real): Paint {
    Hsla((Trunc(innerHue) + 30) as real, 80, 60, 0.4)
  }

  function DiscPaint(matiz: real): Paint {
    Hsla(Mod360(matiz + 60.0), 70, 50, 0.5)
  }

  function DetailDotPaint(matiz: real): Paint {
    Hsla(Mod360(matiz + 120.0), 70, 60, 0.6)
  }

  function DetailDiamondPaint(matiz: real): Paint {
    Hsla(Mod360(matiz + 60.0), 70, 60, 0.6)
  }

  function DetailRayPaint(matiz: real): Paint {
    Hsla(Mod360(matiz + 180.0), 70, 60, 0.6)
  }

  /** Ring i: an hsla hue every third ring when complexidade > 2, else white and dark alternately. */
  function RingFill(complexidade: real, corBase: real, i: int): Paint {
    if complexidade > 2.0 && i % 3 == 0 then Hsla(Mod360(corBase + i as real * 30.0), 70, 50, 0.4)
    else if i % 2 == 0 then Rgba(255, 255, 255, 0.7)
    else Rgba(0, 0, 0, 0.1)
  }

  function SpokePaint(corBase: real, i: int): Paint {
    Hsla(Mod360(corBase + i as real * 10.0), 80, 60, 0.6)
  }

  // ---------------------------------------------------------------------------
  // Scene elements

  datatype Segment = Segment(from: Point, to: Point)

  /** The dot and the decorative lines of a petal whose outer radius exceeds 50. */
  datatype PetalExtras = PetalExtras(dot: Circle, lines: seq<Segment>, lineStroke: Paint)

  /**
   * One petal: two quadratic curves from the origin through the control point
   * to the left and right ends, filled with the gradient.
   */
  datatype Petal = Petal(control: Point, left: Point, right: Point, gradient: Paint, extras: Option<PetalExtras>)

  /** drawDetailPattern's three motifs: a small circle, a small diamond, a radiating line. */
  datatype Motif =
    | DetailDot(dot: Circle, paint: Paint)
    | DetailDiamond(center: Point, half: real, paint: Paint)
    | DetailRay(ray: Segment, paint: Paint)

  /** One layer: its petals, its inner disc and, on some layers, a ring of motifs. */
  datatype Layer = Layer(petals: seq<Petal>, disc: Circle, discFill: Paint, motifs: seq<Motif>)

  datatype Ring = Ring(radius: real, fill: Paint)
  datatype Spoke = Spoke(ray: Segment, paint: Paint)

  /** drawCentralCircles: the concentric rings, the centre dot (always drawn) and the spokes. */
  datatype Central = Central(rings: seq<Ring>, spokes: seq<Spoke>)

  /** The overlays, with the arguments the renderer passes to their point generators. */
  datatype Overlay =
    | FlowerOverlay(circleRadius: real, layers: int, centers: seq<Point>)
    | SpiralOverlay(maxRadius: real, turns: int, points: seq<Point>)
    | FractalOverlay(startRadius: real, depth: int, branches: int, circles: seq<Circle>)

  /**
   * A whole mandala: the canvas size, the rotation in radians, the full turn
   * (Math.PI * 2) every arc sweeps, the layers from the innermost out, the
   * centre and the overlays in drawing order.
   */
  datatype Scene = Scene(
    width: real,
    height: real,
    rotation: real,
    turn: real,
    layers: seq<Layer>,
    central: Central,
    overlays: seq<Overlay>)

  // ---------------------------------------------------------------------------
  // drawPetals

  /**
   * (Math.PI * 2) / n, the angle between neighbouring elements of a ring of n.
   * For n = 0 JavaScript yields Infinity; no element is drawn then, so the value is unused.
   */
  function Sector(h: Host, n: int): real {
    if n == 0 then 0.0 else (FullTurn(h)) / n as real
  }

  /** i * incr: the angle of element i of a ring whose elements lie incr apart. */
  function Angle(i: int, incr: real): real {
    i as real * incr
  }

  function Min3(k: int): nat {
    if k <= 0 then 0 else if k < 3 then k else 3
  }

  /** rExt * (0.3 + 0.2 j): the radius at which a petal's decorative line j sits. */
  function LineRadius(rExt: real, j: int): real {
    rExt * (0.3 + j as real * 0.2)
  }

  /** With a positive outer radius, line j (j >= 1) lies inside the petal exactly for j <= 3. */
  lemma LineFits(rExt: real, j: int)
    requires rExt > 0.0 && j >= 1
    ensures LineRadius(rExt, j) < rExt <==> j <= 3
  {
    var f := 0.3 + j as real * 0.2;
    if j <= 3 {
      MulLess(rExt, f, 1.0);
    } else {
      MulLess(rExt, 1.0, f);
    }
  }

  /** Decorative line j of the petal at angle angulo, when raioLinha = rExt * (0.3 + 0.2 j) < rExt. */
  function LineAt(h: Host, angulo: real, incr: real, raioLinha: real): Segment {
    Segment(Point(h.cos(angulo) * raioLinha * 0.7, h.sin(angulo) * raioLinha * 0.7),
            Point(h.cos(angulo + incr * 0.3) * raioLinha * 0.8, h.sin(angulo + incr * 0.3) * raioLinha * 0.8))
  }

  /**
   * The decorative lines j = 1 .. k of one petal, skipping those that would reach
   * past the petal: whatever k is, a petal of positive radius gets at most three.
   */
  function LinesUpTo(h: Host, angulo: real, incr: real, rExt: real, k: int): (r: seq<Segment>)
    ensures rExt > 0.0 ==> |r| == Min3(k)
    ensures |r| <= Nat0(k)
    decreases k
  {
    if k <= 0 then []
    else
      var raioLinha := LineRadius(rExt, k);
      var prev := LinesUpTo(h, angulo, incr, rExt, k - 1);
      if rExt > 0.0 then LineFits(rExt, k); prev + (if raioLinha < rExt then [LineAt(h, angulo, incr, raioLinha)] else [])
      else prev + (if raioLinha < rExt then [LineAt(h, angulo, incr, raioLinha)] else [])
  }

  /** Petal number i, at angle angulo = i * incr. */
  function PetalAt(h: Host, angulo: real, incr: real, rExt: real, rInt: real, innerHue: real, outerHue: real,
                   complexidade: real): Petal
  {
    var ajusteForma := 1.0 + (complexidade - 1.0) * 0.4;
    Petal(Point(h.cos(angulo) * rExt * ajusteForma, h.sin(angulo) * rExt * ajusteForma),
          Point(h.cos(angulo - incr / 4.0) * rExt, h.sin(angulo - incr / 4.0) * rExt),
          Point(h.cos(angulo + incr / 4.0) * rExt, h.sin(angulo + incr / 4.0) * rExt),
          PetalGradient(rExt, rInt, innerHue, outerHue),
          if rExt > 50.0 then
            Some(PetalExtras(Circle(h.cos(angulo) * rExt * 0.7, h.sin(angulo) * rExt * 0.7, rExt * 0.05),
                             if complexidade > 1.2 then LinesUpTo(h, angulo, incr, rExt, complexidade.Floor) else [],
                             LinePaint(innerHue)))
          else None)
  }

  /**
   * The n petals of one layer (none when n <= 0), spaced evenly around the
   * origin; all share the layer gradient; those of outer radius above 50 carry
   * a dot and, when complexidade > 1.2, min(floor(complexidade), 3) lines.
   */
  function PetalsOf(h: Host, n: int, rExt: real, rInt: real, innerHue: real, outerHue: real,
                    complexidade: real): (r: seq<Petal>)
    ensures |r| == Nat0(n)
    ensures forall i :: 0 <= i < |r| ==> r[i] == PetalAt(h, Angle(i, Sector(h, n)), Sector(h, n), rExt, rInt, innerHue, outerHue, complexidade)
    ensures forall i :: 0 <= i < |r| ==> r[i].gradient == PetalGradient(rExt, rInt, innerHue, outerHue)
    ensures forall i :: 0 <= i < |r| ==> (r[i].extras.Some? <==> rExt > 50.0)
    ensures forall i :: 0 <= i < |r| && r[i].extras.Some? ==>
              |r[i].extras.value.lines| == if complexidade > 1.2 then Min3(complexidade.Floor) else 0
  {
    var incr := Sector(h, n);
    seq(Nat0(n), i => PetalAt(h, Angle(i, incr), incr, rExt, rInt, innerHue, outerHue, complexidade))
  }

  // ---------------------------------------------------------------------------
  // drawDetailPattern

  /** The motif of kind k (0 circle, 1 diamond, 2 ray) at the point (x, y) of a ring of radius raio. */
  function MotifKind(k: int, x: real, y: real, raio: real, matiz: real): Motif {
    if k == 0 then DetailDot(Circle(x, y, raio * 0.05), DetailDotPaint(matiz))
    else if k == 1 then DetailDiamond(Point(x, y), raio * 0.06, DetailDiamondPaint(matiz))
    else DetailRay(Segment(Point(x * 0.8, y * 0.8), Point(x * 1.1, y * 1.1)), DetailRayPaint(matiz))
  }

  /** Motif i of the ring, at angle angulo: a circle, a diamond or a ray as i % 3 is 0, 1 or 2. */
  function MotifAt(h: Host, angulo: real, raio: real, matiz: real, i: int): Motif {
    MotifKind(i % 3, h.cos(angulo) * raio, h.sin(angulo) * raio, raio, matiz)
  }

  /** A ring of n motifs of radius raio (none when n <= 0), cycling circle, diamond, ray. */
  function MotifsOf(h: Host, n: int, raio: real, matiz: real): (r: seq<Motif>)
    ensures |r| == Nat0(n)
    ensures forall i :: 0 <= i < |r| ==> r[i] == MotifAt(h, Angle(i, Sector(h, n)), raio, matiz, i)
    ensures forall i :: 0 <= i < |r| ==>
              (r[i].DetailDot? <==> i % 3 == 0) && (r[i].DetailDiamond? <==> i % 3 == 1) && (r[i].DetailRay? <==> i % 3 == 2)
  {
    seq(Nat0(n), i => MotifAt(h, Angle(i, Sector(h, n)), raio, matiz, i))
  }

  // ---------------------------------------------------------------------------
  // The layers of drawMandala

  /** The motif ring is drawn on even layers when complexidade > 1.5. */
  predicate HasMotifs(complexidade: real, camada: int) {
    complexidade > 1.5 && camada % 2 == 0
  }

  /** A layer's petals grow out from 0.8 of its radius. */
  function PetalBase(raio: real): real {
    raio * 0.8
  }

  /** A layer's central disc has 0.4 of its radius. */
  function DiscRadius(raio: real): real {
    raio * 0.4
  }

  /** A layer's motif ring lies at 0.6 of its radius. */
  function MotifRadius(raio: real): real {
    raio * 0.6
  }

  /** A layer's motif ring has two elements per petal. */
  function MotifCount(petalasCamada: int): int {
    petalasCamada * 2
  }

  /**
   * A layer of radius raio and hue matiz with petalasCamada petals: the petals
   * reach raio from 0.8 raio, the disc has 0.4 raio, and the motif ring, drawn
   * on even layers when complexidade > 1.5, has 2 petalasCamada elements at 0.6 raio.
   */
  function LayerWith(h: Host, petalasCamada: int, raio: real, matiz: real, complexidade: real, camada: int): Layer {
    Layer(PetalsOf(h, petalasCamada, raio, PetalBase(raio), matiz, Mod360(matiz + 30.0), complexidade),
          Circle(0.0, 0.0, DiscRadius(raio)),
          DiscPaint(matiz),
          if HasMotifs(complexidade, camada) then MotifsOf(h, MotifCount(petalasCamada), MotifRadius(raio), matiz) else [])
  }

  /** Layer camada (1-based) of the mandala: its radius, hue and petal count follow from its index. */
  function LayerAt(cfg: MandalaConfig, h: Host, camada: int): Layer
    requires cfg.numCamadas > 0
  {
    LayerWith(h, PetalasCamada(cfg.numPetalas, cfg.complexidade, cfg.numCamadas, camada),
              Raio(Tamanho(cfg), cfg.numCamadas, camada), Matiz(cfg.corBase, cfg.numCamadas, camada),
              cfg.complexidade, camada)
  }

  /** Layers 1 .. numCamadas, innermost first; none when numCamadas <= 0. */
  function LayersOf(cfg: MandalaConfig, h: Host): (r: seq<Layer>)
    ensures |r| == Nat0(cfg.numCamadas)
    ensures forall k :: 0 <= k < |r| ==> r[k] == LayerAt(cfg, h, k + 1)
  {
    seq(Nat0(cfg.numCamadas), k requires 0 <= k < Nat0(cfg.numCamadas) => LayerAt(cfg, h, k + 1))
  }

  /**
   * Layer camada draws petalasCamada petals: at least numPetalas of them when
   * complexidade >= 1, exactly numPetalas on the outermost layer, and never
   * fewer than the next layer out. Its motif ring, when drawn, has twice as many
   * elements as it has petals; its disc has 0.4 of the layer radius.
   */
  lemma LayerShape(cfg: MandalaConfig, h: Host, camada: int)
    requires 1 <= camada <= cfg.numCamadas
    requires cfg.complexidade >= 1.0 && cfg.numPetalas >= 0
    ensures |LayerAt(cfg, h, camada).petals| >= cfg.numPetalas
    ensures camada == cfg.numCamadas ==> |LayerAt(cfg, h, camada).petals| == cfg.numPetalas
    ensures camada < cfg.numCamadas ==> |LayerAt(cfg, h, camada).petals| >= |LayerAt(cfg, h, camada + 1).petals|
    ensures |LayerAt(cfg, h, camada).motifs| ==
              if HasMotifs(cfg.complexidade, camada) then 2 * |LayerAt(cfg, h, camada).petals| else 0
    ensures LayerAt(cfg, h, camada).disc.radius == Raio(Tamanho(cfg), cfg.numCamadas, camada) * 0.4
  {
    PetalasCamadaBounds(cfg.numPetalas, cfg.complexidade, cfg.numCamadas, camada);
  }

  /**
   * With corBase >= 0, the layer's hue and every hue derived from it lies in
   * [0, 360): the petal gradient's stops, the disc fill.
   */
  lemma LayerHues(cfg: MandalaConfig, h: Host, camada: int)
    requires 1 <= camada <= cfg.numCamadas && cfg.corBase >= 0.0
    ensures var L := LayerAt(cfg, h, camada);
            && 0.0 <= L.discFill.hue < 360.0
            && forall i :: 0 <= i < |L.petals| ==>
                 0.0 <= L.petals[i].gradient.stop0.hue < 360.0 && 0.0 <= L.petals[i].gradient.stop1.hue < 360.0
  {
    var matiz := Matiz(cfg.corBase, cfg.numCamadas, camada);
    MatizInRange(cfg.corBase, cfg.numCamadas, camada);
    Mod360Range(matiz + 30.0);
    Mod360Range(matiz + 60.0);
  }

  // ---------------------------------------------------------------------------
  // drawCentralCircles

  /** Ring i's radius, tamanho * (0.1 - i * 0.015 / sqrt(complexidade)). */
  function RingRadius(tamanho: real, sqrtC: real, i: int): real
    requires sqrtC > 0.0
  {
    tamanho * (0.1 - (i as real * 0.015) / sqrtC)
  }

  /** With a positive tamanho, each ring is strictly smaller than the one before. */
  lemma RingRadiusDecreasing(tamanho: real, sqrtC: real, i: int, j: int)
    requires sqrtC > 0.0 && tamanho > 0.0 && i < j
    ensures RingRadius(tamanho, sqrtC, j) < RingRadius(tamanho, sqrtC, i)
  {
    assert (i as real * 0.015) / sqrtC < (j as real * 0.015) / sqrtC by {
      MulLess(1.0 / sqrtC, i as real * 0.015, j as real * 0.015);
    }
    MulLess(tamanho, 0.1 - (j as real * 0.015) / sqrtC, 0.1 - (i as real * 0.015) / sqrtC);
  }

  /**
   * The index at which the ring loop, started at i, stops: the first index from
   * i on that reaches numCirculos or whose radius is not positive (the break).
   */
  function RingStop(tamanho: real, sqrtC: real, numCirculos: int, i: int): (k: int)
    requires sqrtC > 0.0
    ensures i <= k && (i <= numCirculos ==> k <= numCirculos)
    ensures forall j :: i <= j < k ==> RingRadius(tamanho, sqrtC, j) > 0.0
    ensures k < numCirculos ==> RingRadius(tamanho, sqrtC, k) <= 0.0
    decreases numCirculos - i
  {
    if i >= numCirculos || RingRadius(tamanho, sqrtC, i) <= 0.0 then i
    else RingStop(tamanho, sqrtC, numCirculos, i + 1)
  }

  /**
   * Rings that the loop has already passed do not change where it stops: from
   * any index whose predecessors since i all had positive radii, it stops at the same place.
   */
  lemma {:induction false} RingStopFrom(tamanho: real, sqrtC: real, numCirculos: int, i: int, j: int)
    requires sqrtC > 0.0 && i <= j <= RingStop(tamanho, sqrtC, numCirculos, i)
    ensures RingStop(tamanho, sqrtC, numCirculos, j) == RingStop(tamanho, sqrtC, numCirculos, i)
    decreases j - i
  {
    if i < j {
      RingStopFrom(tamanho, sqrtC, numCirculos, i + 1, j);
    }
  }

  function RingAt(tamanho: real, sqrtC: real, complexidade: real, corBase: real, i: int): Ring
    requires sqrtC > 0.0
  {
    Ring(RingRadius(tamanho, sqrtC, i), RingFill(complexidade, corBase, i))
  }

  /**
   * The rings drawn: ring i for i = 0, 1, ... while i < numCirculos and the
   * radius is positive. So there are at most numCirculos of them, every one has
   * a positive radius, and when fewer are drawn, the next radius was not positive.
   */
  function RingsOf(tamanho: real, sqrtC: real, complexidade: real, corBase: real, numCirculos: int): (r: seq<Ring>)
    requires numCirculos > 0 ==> sqrtC > 0.0
    ensures |r| <= Nat0(numCirculos)
    ensures |r| > 0 ==> sqrtC > 0.0
    ensures forall k :: 0 <= k < |r| ==> r[k] == RingAt(tamanho, sqrtC, complexidade, corBase, k) && r[k].radius > 0.0
    ensures |r| < numCirculos ==> RingRadius(tamanho, sqrtC, |r|) <= 0.0
  {
    if numCirculos <= 0 then []
    else
      var n := RingStop(tamanho, sqrtC, numCirculos, 0);
      seq(n, k requires 0 <= k < n => RingAt(tamanho, sqrtC, complexidade, corBase, k))
  }

  /** With a positive tamanho the rings shrink strictly; with tamanho <= 0 none is drawn. */
  lemma RingsShrink(tamanho: real, sqrtC: real, complexidade: real, corBase: real, numCirculos: int)
    requires numCirculos > 0 ==> sqrtC > 0.0
    ensures var r := RingsOf(tamanho, sqrtC, complexidade, corBase, numCirculos);
            && (tamanho > 0.0 ==> forall k, l :: 0 <= k < l < |r| ==> r[l].radius < r[k].radius)
            && (tamanho <= 0.0 ==> r == [])
  {
    var r := RingsOf(tamanho, sqrtC, complexidade, corBase, numCirculos);
    if tamanho > 0.0 {
      forall k, l | 0 <= k < l < |r|
        ensures r[l].radius < r[k].radius
      {
        RingRadiusDecreasing(tamanho, sqrtC, k, l);
      }
    } else if numCirculos > 0 {
      assert RingRadius(tamanho, sqrtC, 0) <= 0.0;
    }
  }

  /** Spoke i of the radiating pattern, between raioInt / 2 and raioInt = tamanho * 0.15. */
  function SpokeAt(h: Host, angulo: real, raioInt: real, corBase: real, i: int): Spoke {
    Spoke(Segment(Point(h.cos(angulo) * raioInt * 0.5, h.sin(angulo) * raioInt * 0.5),
                  Point(h.cos(angulo) * raioInt, h.sin(angulo) * raioInt)),
          SpokePaint(corBase, i))
  }

  /** numRaios = floor(numPetalas * 1.5) evenly spaced spokes. */
  function SpokesOf(h: Host, tamanho: real, corBase: real, numPetalas: int): (r: seq<Spoke>)
    ensures |r| == Nat0((numPetalas as real * 1.5).Floor)
    ensures forall i :: 0 <= i < |r| ==>
              r[i] == SpokeAt(h, Angle(i, Sector(h, (numPetalas as real * 1.5).Floor)), tamanho * 0.15, corBase, i)
  {
    var numRaios := (numPetalas as real * 1.5).Floor;
    var incr := Sector(h, numRaios);
    seq(Nat0(numRaios), i => SpokeAt(h, Angle(i, incr), tamanho * 0.15, corBase, i))
  }

  /** numCirculos = floor(numCamadas * complexidade). */
  function NumCirculos(numCamadas: int, complexidade: real): int {
    (numCamadas as real * complexidade).Floor
  }

  /** The centre: its rings, and its spokes only when complexidade > 1.7. */
  function CentralOf(h: Host, numCamadas: int, tamanho: real, complexidade: real, corBase: real, numPetalas: int): (r: Central)
    requires NumCirculos(numCamadas, complexidade) > 0 ==> h.sqrt(complexidade) > 0.0
    ensures |r.rings| <= Nat0(NumCirculos(numCamadas, complexidade))
    ensures |r.spokes| == if complexidade > 1.7 then Nat0((numPetalas as real * 1.5).Floor) else 0
  {
    Central(RingsOf(tamanho, h.sqrt(complexidade), complexidade, corBase, NumCirculos(numCamadas, complexidade)),
            if complexidade > 1.7 then SpokesOf(h, tamanho, corBase, numPetalas) else [])
  }

  /**
   * With a non-negative tamanho every radius the layers pass to arc() is
   * non-negative: the discs and the motif dots (petal dots need a radius above 50).
   */
  lemma LayerArcsNonNegative(cfg: MandalaConfig, h: Host)
    requires Tamanho(cfg) >= 0.0
    ensures forall k :: 0 <= k < |LayersOf(cfg, h)| ==> LayersOf(cfg, h)[k].disc.radius >= 0.0
    ensures forall k, i :: (0 <= k < |LayersOf(cfg, h)| && 0 <= i < |LayersOf(cfg, h)[k].motifs| &&
                            LayersOf(cfg, h)[k].motifs[i].DetailDot?) ==> LayersOf(cfg, h)[k].motifs[i].dot.radius >= 0.0
  {
    var L := LayersOf(cfg, h);
    forall k | 0 <= k < |L|
      ensures L[k].disc.radius >= 0.0
      ensures forall i :: 0 <= i < |L[k].motifs| && L[k].motifs[i].DetailDot? ==> L[k].motifs[i].dot.radius >= 0.0
    {
      var step := Tamanho(cfg) / cfg.numCamadas as real;
      MulLess2(step, 0.0, (k + 1) as real);
    }
  }

  /**
   * With a negative tamanho (a negative width, height or pulseScale) the first
   * layer has a negative radius: its first petal's gradient gets negative inner
   * and outer radii, which createRadialGradient rejects with an exception, and
   * its disc a negative arc radius, which arc() rejects when the layer has no petals.
   */
  lemma FirstLayerRadiiNegative(cfg: MandalaConfig, h: Host)
    requires Tamanho(cfg) < 0.0 && cfg.numCamadas >= 1
    ensures |LayersOf(cfg, h)| >= 1 && LayersOf(cfg, h)[0].disc.radius < 0.0
    ensures |LayersOf(cfg, h)[0].petals| >= 1 ==>
              && LayersOf(cfg, h)[0].petals[0].gradient.RadialGradient?
              && LayersOf(cfg, h)[0].petals[0].gradient.r0 < 0.0
              && LayersOf(cfg, h)[0].petals[0].gradient.r1 < 0.0
  {
    assert Raio(Tamanho(cfg), cfg.numCamadas, 1) < 0.0;
  }

  // ---------------------------------------------------------------------------
  // Overlays

  function FlowerOf(h: Host, radius: real): Overlay {
    var circleRadius := radius / (2.0 * 1.5);
    FlowerOverlay(circleRadius, 3, h.flowerOfLifeCenters(circleRadius, 3))
  }

  function SpiralOf(h: Host, maxRadius: real): Overlay {
    SpiralOverlay(maxRadius, 4, h.goldenSpiral(0.0, 0.0, maxRadius, 4))
  }

  function FractalOf(h: Host, radius: real, complexidade: real): Overlay {
    var depth := if complexidade > 2.0 then 3 else 2;
    FractalOverlay(radius * 0.25, depth, 6, h.fractalCircles(0.0, 0.0, radius * 0.25, depth, 6))
  }

  /** Drawing order of the overlay kinds. */
  function Rank(o: Overlay): int {
    match o
    case FlowerOverlay(_, _, _) => 0
    case SpiralOverlay(_, _, _) => 1
    case FractalOverlay(_, _, _, _) => 2
  }

  /** The overlays whose flags are set, appended in the order flower of life, spiral, fractal. */
  function OverlaysOf(cfg: MandalaConfig, h: Host, tamanho: real): seq<Overlay> {
    var flower := if cfg.flowerOfLife then [FlowerOf(h, tamanho)] else [];
    var spiral := if cfg.goldenSpiral then flower + [SpiralOf(h, tamanho)] else flower;
    if cfg.fractalMode then spiral + [FractalOf(h, tamanho, cfg.complexidade)] else spiral
  }

  /**
   * Each overlay is drawn exactly when its flag is set, at most once, and they
   * come in the order flower of life, spiral, fractal.
   */
  lemma OverlaysOrder(cfg: MandalaConfig, h: Host, tamanho: real)
    ensures var r := OverlaysOf(cfg, h, tamanho);
            && (forall i, j :: 0 <= i < j < |r| ==> Rank(r[i]) < Rank(r[j]))
            && ((exists o :: o in r && o.FlowerOverlay?) <==> cfg.flowerOfLife)
            && ((exists o :: o in r && o.SpiralOverlay?) <==> cfg.goldenSpiral)
            && ((exists o :: o in r && o.FractalOverlay?) <==> cfg.fractalMode)
  {
    var flower := if cfg.flowerOfLife then [FlowerOf(h, tamanho)] else [];
    var spiral := if cfg.goldenSpiral then flower + [SpiralOf(h, tamanho)] else flower;
    var r := OverlaysOf(cfg, h, tamanho);
    assert forall o :: o in spiral ==> Rank(o) <= 1;
    assert cfg.flowerOfLife ==> FlowerOf(h, tamanho) in r;
    assert cfg.goldenSpiral ==> SpiralOf(h, tamanho) in r;
    assert cfg.fractalMode ==> FractalOf(h, tamanho, cfg.complexidade) in r;
  }

  /**
   * The overlays' parameters: flower-of-life circles of a third of the mandala
   * radius on 3 rings, a 4-turn spiral reaching the mandala radius, and a
   * 6-branch fractal from a quarter of it, 3 levels deep exactly when complexidade > 2.
   */
  lemma OverlayParameters(cfg: MandalaConfig, h: Host, tamanho: real)
    ensures forall o :: o in OverlaysOf(cfg, h, tamanho) ==> match o
      case FlowerOverlay(cr, layers, _) => cr * 3.0 == tamanho && layers == 3
      case SpiralOverlay(mr, turns, _) => mr == tamanho && turns == 4
      case FractalOverlay(sr, depth, branches, _) =>
        sr * 4.0 == tamanho && branches == 6 && (depth == 3 <==> cfg.complexidade > 2.0) && 2 <= depth <= 3
  {
  }

  // ---------------------------------------------------------------------------
  // The whole mandala

  /** What drawMandala draws for cfg. */
  function SceneOf(cfg: MandalaConfig, h: Host): Scene
    requires NumCirculos(cfg.numCamadas, cfg.complexidade) > 0 ==> h.sqrt(cfg.complexidade) > 0.0
  {
    var tamanho := Tamanho(cfg);
    Scene(cfg.width, cfg.height, Radians(cfg.rotacao, h.pi), FullTurn(h),
          LayersOf(cfg, h),
          CentralOf(h, cfg.numCamadas, tamanho, cfg.complexidade, cfg.corBase, cfg.numPetalas),
          OverlaysOf(cfg, h, tamanho))
  }
}
