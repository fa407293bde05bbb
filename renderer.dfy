/**
 * The drawing procedures of src/lib/mandala-renderer.ts, issuing their calls on
 * the drawing context one at a time, with the same loops, guards and early exit.
 * Each procedure is proved to append to the context's log exactly the calls
 * that draw its part of the scene (module SceneCommands), so what the scene and
 * its calls guarantee holds of what these procedures do to the context.
 */
module MandalaRenderer {

  import opened Canvas
  import opened RenderMath
  import opened MandalaScene
  import opened SceneCommands

  /** Petal i of the layer, with the layer's angular step held in incr. */
  lemma PetalIndex(h: Host, n: int, rExt: real, rInt: real, innerHue: real, outerHue: real, complexidade: real,
                   incr: real, i: int)
    requires incr == Sector(h, n) && 0 <= i < Nat0(n)
    ensures PetalsOf(h, n, rExt, rInt, innerHue, outerHue, complexidade)[i]
         == PetalAt(h, i as real * incr, incr, rExt, rInt, innerHue, outerHue, complexidade)
  {
    assert PetalsOf(h, n, rExt, rInt, innerHue, outerHue, complexidade)[i]
        == PetalAt(h, Angle(i, incr), incr, rExt, rInt, innerHue, outerHue, complexidade);
    assert Angle(i, incr) == i as real * incr;
  }

  /** A petal's outline: two quadratic curves from the origin through its control point, filled, then stroked. */
  method DrawPetalOutline(ctx: Context, petal: Petal)
    modifies ctx
    ensures ctx.log == OutlineDrawn(old(ctx.log), petal)
  {
    ctx.BeginPath();
    ctx.MoveTo(0.0, 0.0);
    ctx.QuadraticCurveTo(petal.control.x, petal.control.y, petal.left.x, petal.left.y);
    ctx.LineTo(0.0, 0.0);
    ctx.QuadraticCurveTo(petal.control.x, petal.control.y, petal.right.x, petal.right.y);
    ctx.LineTo(0.0, 0.0);
    ctx.SetFillStyle(petal.gradient);
    ctx.Fill();
    ctx.SetStrokeStyle(WhiteHalf);
    ctx.SetLineWidth(1.0);
    ctx.Stroke();
  }

  /** A filled full circle. */
  method DrawDot(ctx: Context, dot: Circle, paint: Paint, turn: real)
    modifies ctx
    ensures ctx.log == DotDrawn(old(ctx.log), dot, paint, turn)
  {
    ctx.BeginPath();
    ctx.Arc(dot.x, dot.y, dot.radius, 0.0, turn);
    ctx.SetFillStyle(paint);
    ctx.Fill();
  }

  /**
   * One pass of drawPetals' loop: the petal at angle angulo, filled and
   * stroked; then, when raioExterno > 50, its dot and, when complexidade > 1.2,
   * its decorative lines j = 1 .. floor(complexidade), each drawn only while its
   * radius stays below raioExterno.
   */
  method DrawPetal(ctx: Context, h: Host, angulo: real, anguloIncremento: real, raioExterno: real, raioInterno: real,
                   innerHue: real, outerHue: real, complexidade: real)
    modifies ctx
    ensures ctx.log == PetalDrawn(old(ctx.log), PetalAt(h, angulo, anguloIncremento, raioExterno, raioInterno,
                                                        innerHue, outerHue, complexidade), FullTurn(h))
  {
    var petal := PetalAt(h, angulo, anguloIncremento, raioExterno, raioInterno, innerHue, outerHue, complexidade);
    DrawPetalOutline(ctx, petal);
    if raioExterno > 50.0 {
      DrawDot(ctx, petal.extras.value.dot, DotWhite, FullTurn(h));
      if complexidade > 1.2 {
        DrawPetalLines(ctx, h, angulo, anguloIncremento, raioExterno, innerHue, complexidade.Floor);
      } else {
        assert petal.extras.value.lines == [];
      }
    }
  }

  /** A stroked segment: beginPath, moveTo, lineTo, then the stroke in the given paint and width. */
  method DrawLine(ctx: Context, line: Segment, paint: Paint, width: real)
    modifies ctx
    ensures ctx.log == LineDrawn(old(ctx.log), line, paint, width)
  {
    ctx.BeginPath();
    ctx.MoveTo(line.from.x, line.from.y);
    ctx.LineTo(line.to.x, line.to.y);
    ctx.SetStrokeStyle(paint);
    ctx.SetLineWidth(width);
    ctx.Stroke();
  }

  /**
   * The inner loop of drawPetals: decorative lines j = 1 .. numLinhas of the
   * petal at angle angulo, each drawn only while its radius stays below raioExterno.
   */
  method DrawPetalLines(ctx: Context, h: Host, angulo: real, anguloIncremento: real, raioExterno: real,
                        innerHue: real, numLinhas: int)
    modifies ctx
    ensures ctx.log == LinesDrawn(old(ctx.log), LinesUpTo(h, angulo, anguloIncremento, raioExterno, numLinhas),
                                  LinePaint(innerHue))
  {
    var corLinha := LinePaint(innerHue);
    var j := 1;
    while j <= numLinhas
      invariant 1 <= j <= if numLinhas < 1 then 1 else numLinhas + 1
      invariant ctx.log == LinesDrawn(old(ctx.log), LinesUpTo(h, angulo, anguloIncremento, raioExterno, j - 1), corLinha)
    {
      ghost var prev := LinesUpTo(h, angulo, anguloIncremento, raioExterno, j - 1);
      var raioLinha := LineRadius(raioExterno, j);
      if raioLinha < raioExterno {
        var line := LineAt(h, angulo, anguloIncremento, raioLinha);
        DrawLine(ctx, line, corLinha, 1.0);
        assert LinesUpTo(h, angulo, anguloIncremento, raioExterno, j) == prev + [line];
        assert (prev + [line])[..|prev|] == prev;
      } else {
        assert LinesUpTo(h, angulo, anguloIncremento, raioExterno, j) == prev + [];
        assert prev + [] == prev;
      }
      j := j + 1;
    }
    assert numLinhas <= 0 ==> j == 1;
  }

  /**
   * drawPetals: n petals around the origin. corInterna and corExterna, the
   * strings hsl(innerHue, 70%, 50%) and hsl(outerHue, 70%, 50%), are passed as their hues.
   */
  method DrawPetals(ctx: Context, h: Host, numPetalas: int, raioExterno: real, raioInterno: real,
                    innerHue: real, outerHue: real, complexidade: real)
    modifies ctx
    ensures ctx.log == PetalsDrawn(old(ctx.log), PetalsOf(h, numPetalas, raioExterno, raioInterno, innerHue, outerHue, complexidade),
                                   FullTurn(h))
  {
    ghost var petals := PetalsOf(h, numPetalas, raioExterno, raioInterno, innerHue, outerHue, complexidade);
    var anguloIncremento := Sector(h, numPetalas);
    var i := 0;
    while i < numPetalas
      invariant 0 <= i <= |petals|
      invariant ctx.log == PetalsDrawn(old(ctx.log), petals[..i], FullTurn(h))
    {
      ghost var drawn := ctx.log;
      var angulo := i as real * anguloIncremento;
      PetalIndex(h, numPetalas, raioExterno, raioInterno, innerHue, outerHue, complexidade, anguloIncremento, i);
      DrawPetal(ctx, h, angulo, anguloIncremento, raioExterno, raioInterno, innerHue, outerHue, complexidade);
      assert petals[..i + 1][..i] == petals[..i];
      assert ctx.log == PetalDrawn(drawn, petals[i], FullTurn(h));
      i := i + 1;
    }
    assert i == |petals|;
    assert petals[..i] == petals;
  }

  /** drawDetailPattern's circle: a filled dot of radius raio * 0.05 at (x, y). */
  method DrawDetailDot(ctx: Context, h: Host, x: real, y: real, raio: real, matiz: real)
    modifies ctx
    ensures ctx.log == MotifDrawn(old(ctx.log), DetailDot(Circle(x, y, raio * 0.05), DetailDotPaint(matiz)), FullTurn(h))
  {
    ctx.BeginPath();
    ctx.Arc(x, y, raio * 0.05, 0.0, FullTurn(h));
    ctx.SetFillStyle(DetailDotPaint(matiz));
    ctx.Fill();
  }

  /** drawDetailPattern's diamond: a filled square of half-diagonal raio * 0.06 turned on its corner at (x, y). */
  method DrawDetailDiamond(ctx: Context, h: Host, x: real, y: real, raio: real, matiz: real)
    modifies ctx
    ensures ctx.log == MotifDrawn(old(ctx.log), DetailDiamond(Point(x, y), raio * 0.06, DetailDiamondPaint(matiz)), FullTurn(h))
  {
    ctx.BeginPath();
    ctx.MoveTo(x, y - raio * 0.06);
    ctx.LineTo(x + raio * 0.06, y);
    ctx.LineTo(x, y + raio * 0.06);
    ctx.LineTo(x - raio * 0.06, y);
    ctx.ClosePath();
    ctx.SetFillStyle(DetailDiamondPaint(matiz));
    ctx.Fill();
  }

  /** drawDetailPattern's ray: a line from 0.8 to 1.1 of the way to (x, y). */
  method DrawDetailRay(ctx: Context, h: Host, x: real, y: real, raio: real, matiz: real)
    modifies ctx
    ensures ctx.log == MotifDrawn(old(ctx.log), DetailRay(Segment(Point(x * 0.8, y * 0.8), Point(x * 1.1, y * 1.1)), DetailRayPaint(matiz)), FullTurn(h))
  {
    ctx.BeginPath();
    ctx.MoveTo(x * 0.8, y * 0.8);
    ctx.LineTo(x * 1.1, y * 1.1);
    ctx.SetStrokeStyle(DetailRayPaint(matiz));
    ctx.SetLineWidth(2.0);
    ctx.Stroke();
  }

  /** One pass of drawDetailPattern's loop: motif i at angle angulo, its kind chosen by i % 3. */
  method DrawMotif(ctx: Context, h: Host, angulo: real, raio: real, matiz: real, i: int)
    modifies ctx
    ensures ctx.log == MotifDrawn(old(ctx.log), MotifAt(h, angulo, raio, matiz, i), FullTurn(h))
  {
    var x := h.cos(angulo) * raio;
    var y := h.sin(angulo) * raio;
    ghost var motif := MotifAt(h, angulo, raio, matiz, i);
    if i % 3 == 0 {
      assert motif == DetailDot(Circle(x, y, raio * 0.05), DetailDotPaint(matiz));
      DrawDetailDot(ctx, h, x, y, raio, matiz);
    } else if i % 3 == 1 {
      assert motif == DetailDiamond(Point(x, y), raio * 0.06, DetailDiamondPaint(matiz));
      DrawDetailDiamond(ctx, h, x, y, raio, matiz);
    } else {
      assert motif == DetailRay(Segment(Point(x * 0.8, y * 0.8), Point(x * 1.1, y * 1.1)), DetailRayPaint(matiz));
      DrawDetailRay(ctx, h, x, y, raio, matiz);
    }
  }

  /** Motif i of the ring, with the ring's angular step held in incr. */
  lemma MotifIndex(h: Host, n: int, raio: real, matiz: real, incr: real, i: int)
    requires incr == Sector(h, n) && 0 <= i < Nat0(n)
    ensures MotifsOf(h, n, raio, matiz)[i] == MotifAt(h, i as real * incr, raio, matiz, i)
  {
    assert MotifsOf(h, n, raio, matiz)[i] == MotifAt(h, Angle(i, incr), raio, matiz, i);
    assert Angle(i, incr) == i as real * incr;
  }

  /** drawDetailPattern: n motifs on a circle of radius raio, cycling circle, diamond, ray. */
  method DrawDetailPattern(ctx: Context, h: Host, numElementos: int, raio: real, matiz: real)
    modifies ctx
    ensures ctx.log == MotifsDrawn(old(ctx.log), MotifsOf(h, numElementos, raio, matiz), FullTurn(h))
  {
    ghost var motifs := MotifsOf(h, numElementos, raio, matiz);
    var anguloIncremento := Sector(h, numElementos);
    var i := 0;
    while i < numElementos
      invariant 0 <= i <= |motifs|
      invariant ctx.log == MotifsDrawn(old(ctx.log), motifs[..i], FullTurn(h))
    {
      ghost var drawn := ctx.log;
      var angulo := i as real * anguloIncremento;
      MotifIndex(h, numElementos, raio, matiz, anguloIncremento, i);
      DrawMotif(ctx, h, angulo, raio, matiz, i);
      assert motifs[..i + 1][..i] == motifs[..i];
      assert ctx.log == MotifDrawn(drawn, motifs[i], FullTurn(h));
      i := i + 1;
    }
    assert i == |motifs|;
    assert motifs[..i] == motifs;
  }

  /** One pass of the ring loop: ring i of radius raio, filled by its index, then stroked. */
  method DrawRing(ctx: Context, h: Host, raio: real, complexidade: real, corBase: real, i: int)
    modifies ctx
    ensures ctx.log == RingDrawn(old(ctx.log), Ring(raio, RingFill(complexidade, corBase, i)), FullTurn(h))
  {
    ctx.BeginPath();
    ctx.Arc(0.0, 0.0, raio, 0.0, FullTurn(h));
    if complexidade > 2.0 && i % 3 == 0 {
      ctx.SetFillStyle(Hsla(Mod360(corBase + i as real * 30.0), 70, 50, 0.4));
    } else if i % 2 == 0 {
      ctx.SetFillStyle(Rgba(255, 255, 255, 0.7));
    } else {
      ctx.SetFillStyle(Rgba(0, 0, 0, 0.1));
    }
    ctx.Fill();
    ctx.SetStrokeStyle(RingStroke);
    ctx.SetLineWidth(1.0);
    ctx.Stroke();
  }

  /** The ring loop of drawCentralCircles: rings 0, 1, ... while i < numCirculos, leaving at the first radius <= 0. */
  method DrawRings(ctx: Context, h: Host, numCirculos: int, tamanho: real, complexidade: real, corBase: real)
    requires numCirculos > 0 ==> h.sqrt(complexidade) > 0.0
    modifies ctx
    ensures ctx.log == RingsDrawn(old(ctx.log), RingsOf(tamanho, h.sqrt(complexidade), complexidade, corBase, numCirculos), FullTurn(h))
  {
    ghost var rings := RingsOf(tamanho, h.sqrt(complexidade), complexidade, corBase, numCirculos);
    var i := 0;
    while i < numCirculos
      invariant 0 <= i <= |rings|
      invariant ctx.log == RingsDrawn(old(ctx.log), rings[..i], FullTurn(h))
      decreases numCirculos - i
    {
      var raio := RingRadius(tamanho, h.sqrt(complexidade), i);
      RingStopFrom(tamanho, h.sqrt(complexidade), numCirculos, 0, i);
      if raio <= 0.0 {
        break;
      }
      ghost var drawn := ctx.log;
      DrawRing(ctx, h, raio, complexidade, corBase, i);
      assert rings[i] == Ring(raio, RingFill(complexidade, corBase, i));
      assert rings[..i + 1][..i] == rings[..i];
      assert ctx.log == RingDrawn(drawn, rings[i], FullTurn(h));
      i := i + 1;
    }
    assert i == |rings|;
    assert rings[..i] == rings;
  }

  /** SpokesOf's element i, with the angle step as drawCentralCircles holds it. */
  lemma SpokeIndex(h: Host, tamanho: real, corBase: real, numPetalas: int, incr: real, i: int)
    requires incr == Sector(h, (numPetalas as real * 1.5).Floor) && 0 <= i < Nat0((numPetalas as real * 1.5).Floor)
    ensures SpokesOf(h, tamanho, corBase, numPetalas)[i] == SpokeAt(h, i as real * incr, tamanho * 0.15, corBase, i)
  {
    assert SpokesOf(h, tamanho, corBase, numPetalas)[i] == SpokeAt(h, Angle(i, incr), tamanho * 0.15, corBase, i);
    assert Angle(i, incr) == i as real * incr;
  }

  /** One pass of the spoke loop: spoke i at angle angulo, stroked in its hue. */
  method DrawSpoke(ctx: Context, h: Host, angulo: real, raioInt: real, corBase: real, i: int)
    modifies ctx
    ensures ctx.log == SpokesDrawn(old(ctx.log), [SpokeAt(h, angulo, raioInt, corBase, i)])
  {
    var spoke := SpokeAt(h, angulo, raioInt, corBase, i);
    ctx.BeginPath();
    ctx.MoveTo(spoke.ray.from.x, spoke.ray.from.y);
    ctx.LineTo(spoke.ray.to.x, spoke.ray.to.y);
    ctx.SetStrokeStyle(SpokePaint(corBase, i));
    ctx.SetLineWidth(1.0);
    ctx.Stroke();
    assert [spoke][..0] == [];
  }

  /** The spoke loop of drawCentralCircles: floor(numPetalas * 1.5) spokes, evenly spaced. */
  method DrawSpokes(ctx: Context, h: Host, tamanho: real, corBase: real, numPetalas: int)
    modifies ctx
    ensures ctx.log == SpokesDrawn(old(ctx.log), SpokesOf(h, tamanho, corBase, numPetalas))
  {
    ghost var spokes := SpokesOf(h, tamanho, corBase, numPetalas);
    var numRaios := (numPetalas as real * 1.5).Floor;
    var anguloRaio := Sector(h, numRaios);
    var raioInt := tamanho * 0.15;
    var i := 0;
    while i < numRaios
      invariant 0 <= i <= |spokes|
      invariant ctx.log == SpokesDrawn(old(ctx.log), spokes[..i])
    {
      ghost var drawn := ctx.log;
      var angulo := i as real * anguloRaio;
      SpokeIndex(h, tamanho, corBase, numPetalas, anguloRaio, i);
      DrawSpoke(ctx, h, angulo, raioInt, corBase, i);
      assert spokes[..i + 1][..i] == spokes[..i];
      assert ctx.log == SpokesDrawn(drawn, [spokes[i]]);
      i := i + 1;
    }
    assert i == |spokes|;
    assert spokes[..i] == spokes;
  }

  /**
   * drawCentralCircles: rings while their radius stays positive, the centre
   * dot, and the spokes when complexidade > 1.7.
   */
  method DrawCentralCircles(ctx: Context, h: Host, numCamadas: int, tamanho: real, complexidade: real,
                            corBase: real, numPetalas: int)
    requires NumCirculos(numCamadas, complexidade) > 0 ==> h.sqrt(complexidade) > 0.0
    modifies ctx
    ensures ctx.log == CentralDrawn(old(ctx.log), CentralOf(h, numCamadas, tamanho, complexidade, corBase, numPetalas), FullTurn(h))
  {
    var numCirculos := NumCirculos(numCamadas, complexidade);
    DrawRings(ctx, h, numCirculos, tamanho, complexidade, corBase);
    DrawDot(ctx, CenterDot, CenterWhite, FullTurn(h));
    if complexidade > 1.7 {
      DrawSpokes(ctx, h, tamanho, corBase, numPetalas);
    }
  }

  /** drawFlowerOfLifeOverlay: gold outlines around the flower-of-life centres, inside save()/restore(). */
  method DrawFlowerOfLifeOverlay(ctx: Context, h: Host, radius: real)
    modifies ctx
    ensures ctx.log == FlowerDrawn(old(ctx.log), FlowerOf(h, radius).circleRadius, FlowerOf(h, radius).centers, FullTurn(h))
  {
    var layers := 3;
    var circleRadius := radius / (2.0 * 1.5);
    var centers := h.flowerOfLifeCenters(circleRadius, layers);

    ctx.Save();
    ctx.SetGlobalCompositeOperation("source-over");
    ctx.SetStrokeStyle(FlowerStroke);
    ctx.SetLineWidth(2.0);
    ghost var styled := ctx.log;
    var i := 0;
    while i < |centers|
      invariant 0 <= i <= |centers|
      invariant ctx.log == OutlinesDrawn(styled, centers[..i], circleRadius, FullTurn(h))
    {
      ctx.BeginPath();
      ctx.Arc(centers[i].x, centers[i].y, circleRadius, 0.0, FullTurn(h));
      ctx.Stroke();
      assert centers[..i + 1][..i] == centers[..i];
      i := i + 1;
    }
    assert centers[..i] == centers;
    ctx.Restore();
  }

  /** drawGoldenSpiral: one glowing gold polyline through the spiral's points, inside save()/restore(). */
  method DrawGoldenSpiral(ctx: Context, h: Host, maxRadius: real)
    modifies ctx
    ensures ctx.log == SpiralDrawn(old(ctx.log), SpiralOf(h, maxRadius).points)
  {
    var turns := 4;
    var points := h.goldenSpiral(0.0, 0.0, maxRadius, turns);

    ctx.Save();
    ctx.SetStrokeStyle(SpiralStroke);
    ctx.SetLineWidth(3.0);
    ctx.SetShadowColor(SpiralGlow);
    ctx.SetShadowBlur(10.0);
    ctx.BeginPath();
    ghost var styled := ctx.log;
    if |points| > 0 {
      ctx.MoveTo(points[0].x, points[0].y);
      ghost var moved := ctx.log;
      var i := 1;
      while i < |points|
        invariant 1 <= i <= |points|
        invariant ctx.log == LineTosDrawn(moved, points[1..i])
      {
        ctx.LineTo(points[i].x, points[i].y);
        assert points[1..i + 1][..i - 1] == points[1..i];
        i := i + 1;
      }
      assert points[1..i] == points[1..];
    }
    assert ctx.log == PolylineDrawn(styled, points);
    ctx.Stroke();
    ctx.Restore();
  }

  /** drawFractalOverlay: the fractal's circles outlined and tinted, inside save()/restore(). */
  method DrawFractalOverlay(ctx: Context, h: Host, radius: real, complexidade: real)
    modifies ctx
    ensures ctx.log == FractalDrawn(old(ctx.log), FractalOf(h, radius, complexidade).circles, FullTurn(h))
  {
    var depth := if complexidade > 2.0 then 3 else 2;
    var branches := 6;
    var startRadius := radius * 0.25;
    var circles := h.fractalCircles(0.0, 0.0, startRadius, depth, branches);

    ctx.Save();
    ctx.SetStrokeStyle(FractalStroke);
    ctx.SetLineWidth(1.5);
    ghost var styled := ctx.log;
    var i := 0;
    while i < |circles|
      invariant 0 <= i <= |circles|
      invariant ctx.log == FractalCirclesDrawn(styled, circles[..i], FullTurn(h))
    {
      ctx.BeginPath();
      ctx.Arc(circles[i].x, circles[i].y, circles[i].radius, 0.0, FullTurn(h));
      ctx.Stroke();
      ctx.SetFillStyle(FractalFill);
      ctx.Fill();
      assert circles[..i + 1][..i] == circles[..i];
      i := i + 1;
    }
    assert circles[..i] == circles;
    ctx.Restore();
  }

  /** A layer's central disc: filled in the layer's hue, then stroked in translucent white. */
  method DrawDisc(ctx: Context, h: Host, raio: real, matiz: real)
    modifies ctx
    ensures ctx.log == DiscDrawn(old(ctx.log), Circle(0.0, 0.0, DiscRadius(raio)), DiscPaint(matiz), FullTurn(h))
  {
    ctx.BeginPath();
    ctx.Arc(0.0, 0.0, DiscRadius(raio), 0.0, FullTurn(h));
    ctx.SetFillStyle(DiscPaint(matiz));
    ctx.Fill();
    ctx.SetStrokeStyle(WhiteHalf);
    ctx.SetLineWidth(2.0);
    ctx.Stroke();
  }

  /**
   * One pass of drawMandala's layer loop: layer camada's petals, its central
   * disc, and its motif ring on even layers when complexidade > 1.5.
   */
  method DrawLayer(ctx: Context, h: Host, petalasCamada: int, raio: real, matiz: real, complexidade: real, camada: int)
    modifies ctx
    ensures ctx.log == LayerDrawn(old(ctx.log), LayerWith(h, petalasCamada, raio, matiz, complexidade, camada), FullTurn(h))
  {
    DrawPetals(ctx, h, petalasCamada, raio, PetalBase(raio), matiz, Mod360(matiz + 30.0), complexidade);
    DrawDisc(ctx, h, raio, matiz);
    if complexidade > 1.5 && camada % 2 == 0 {
      DrawDetailPattern(ctx, h, MotifCount(petalasCamada), MotifRadius(raio), matiz);
    }
  }

  /** drawMandala's layer loop: layers 1 .. numCamadas, innermost first. */
  method DrawLayers(ctx: Context, h: Host, cfg: MandalaConfig, tamanho: real)
    requires tamanho == Tamanho(cfg)
    modifies ctx
    ensures ctx.log == LayersDrawn(old(ctx.log), LayersOf(cfg, h), FullTurn(h))
  {
    ghost var layers := LayersOf(cfg, h);
    var camada := 1;
    while camada <= cfg.numCamadas
      invariant 1 <= camada <= |layers| + 1
      invariant ctx.log == LayersDrawn(old(ctx.log), layers[..camada - 1], FullTurn(h))
    {
      ghost var drawn := ctx.log;
      var raio := Raio(tamanho, cfg.numCamadas, camada);
      var matiz := Matiz(cfg.corBase, cfg.numCamadas, camada);
      var petalasCamada := PetalasCamada(cfg.numPetalas, cfg.complexidade, cfg.numCamadas, camada);
      DrawLayer(ctx, h, petalasCamada, raio, matiz, cfg.complexidade, camada);
      assert layers[camada - 1] == LayerWith(h, petalasCamada, raio, matiz, cfg.complexidade, camada);
      assert layers[..camada][..camada - 1] == layers[..camada - 1];
      assert ctx.log == LayerDrawn(drawn, layers[camada - 1], FullTurn(h));
      camada := camada + 1;
    }
    assert camada - 1 == |layers|;
    assert layers[..camada - 1] == layers;
  }

  /** The overlays of drawMandala, each drawn when its flag is set: flower of life, golden spiral, fractal. */
  method DrawOverlays(ctx: Context, h: Host, cfg: MandalaConfig, tamanho: real)
    modifies ctx
    ensures ctx.log == OverlaysDrawn(old(ctx.log), OverlaysOf(cfg, h, tamanho), FullTurn(h))
  {
    ghost var drawn: seq<Overlay> := [];
    if cfg.flowerOfLife {
      DrawFlowerOfLifeOverlay(ctx, h, tamanho);
      OverlaysSnoc(old(ctx.log), [], FlowerOf(h, tamanho), FullTurn(h));
      drawn := [FlowerOf(h, tamanho)];
      assert [] + drawn == drawn;
    }
    if cfg.goldenSpiral {
      DrawGoldenSpiral(ctx, h, tamanho);
      OverlaysSnoc(old(ctx.log), drawn, SpiralOf(h, tamanho), FullTurn(h));
      drawn := drawn + [SpiralOf(h, tamanho)];
    }
    if cfg.fractalMode {
      DrawFractalOverlay(ctx, h, tamanho, cfg.complexidade);
      OverlaysSnoc(old(ctx.log), drawn, FractalOf(h, tamanho, cfg.complexidade), FullTurn(h));
      drawn := drawn + [FractalOf(h, tamanho, cfg.complexidade)];
    }
    assert drawn == OverlaysOf(cfg, h, tamanho);
  }

  /**
   * drawMandala: clears the canvas and draws the whole mandala for cfg. It
   * appends exactly the calls of one render pass of SceneOf(cfg, h), so it
   * leaves the drawing state, and the stack of saved states, as it found them.
   * A negative tamanho makes the canvas reject the first layer's first petal
   * gradient, or its disc's arc when it has no petals (see
   * FirstLayerRadiiNegative), so the pass is modelled for tamanho >= 0 only.
   */
  method DrawMandala(ctx: Context, h: Host, cfg: MandalaConfig)
    requires Tamanho(cfg) >= 0.0
    requires NumCirculos(cfg.numCamadas, cfg.complexidade) > 0 ==> h.sqrt(cfg.complexidade) > 0.0
    modifies ctx
    ensures ctx.log == old(ctx.log) + SceneCmds(SceneOf(cfg, h))
    ensures ctx.Replay() == old(ctx.Replay())
  {
    ghost var scene := SceneOf(cfg, h);
    var tamanho := Tamanho(cfg);

    ctx.ClearRect(0.0, 0.0, cfg.width, cfg.height);
    ctx.Save();
    ctx.Translate(Half(cfg.width), Half(cfg.height));
    ctx.Rotate(Radians(cfg.rotacao, h.pi));
    ghost var prologue := ctx.log;
    assert prologue == PrologueDrawn(old(ctx.log), scene);

    DrawLayers(ctx, h, cfg, tamanho);
    ghost var layersDone := ctx.log;
    DrawCentralCircles(ctx, h, cfg.numCamadas, tamanho, cfg.complexidade, cfg.corBase, cfg.numPetalas);
    ghost var centralDone := ctx.log;
    DrawOverlays(ctx, h, cfg, tamanho);
    assert layersDone == LayersDrawn(prologue, scene.layers, scene.turn);
    assert centralDone == CentralDrawn(layersDone, scene.central, scene.turn);
    assert ctx.log == OverlaysDrawn(centralDone, scene.overlays, scene.turn);
    ctx.Restore();

    SceneShift(old(ctx.log), scene);
    ExecAppend(Fresh, old(ctx.log), SceneCmds(scene));
    SceneRestoresState(old(ctx.Replay()), scene);
  }
}
