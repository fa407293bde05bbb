/**
 * The renderer's configuration and its per-layer arithmetic
 * (src/lib/mandala-renderer.ts): overall size, layer radius, layer hue and the
 * number of petals per layer.
 */
module RenderMath {

  import opened Canvas

  datatype Point = Point(x: real, y: real)
  datatype Circle = Circle(x: real, y: real, radius: real)

  /**
   * MandalaConfig. The optional overlay flags are false when absent;
   * pulseScale is None when absent.
   */
  datatype MandalaConfig = MandalaConfig(
    numPetalas: int,
    numCamadas: int,
    corBase: real,
    complexidade: real,
    rotacao: real,
    width: real,
    height: real,
    flowerOfLife: bool,
    goldenSpiral: bool,
    fractalMode: bool,
    pulseScale: Option<real>)

  /**
   * What the renderer calls but does not define: Math.PI, Math.cos, Math.sin,
   * Math.sqrt, and the three point generators it imports.
   */
  datatype Host = Host(
    pi: real,
    cos: real -> real,
    sin: real -> real,
    sqrt: real -> real,
    flowerOfLifeCenters: (real, int) -> seq<Point>,
    goldenSpiral: (real, real, real, int) -> seq<Point>,
    fractalCircles: (real, real, real, int, int) -> seq<Circle>)

  function Min(a: real, b: real): real {
    if a <= b then a else b
  }

  function Nat0(k: int): nat {
    if k > 0 then k else 0
  }

  /** Truncation toward zero (what parseInt keeps of a decimal numeral). */
  function Trunc(x: real): int {
    if x >= 0.0 then x.Floor else -((-x).Floor)
  }

  /** JavaScript's x % 360 on numbers: the remainder of truncated division, with the sign of x. */
  function Mod360(x: real): real {
    x - 360.0 * (Trunc(x / 360.0) as real)
  }

  /** A non-negative hue wraps into [0, 360); a negative one into (-360, 0]. */
  lemma Mod360Range(x: real)
    ensures x >= 0.0 ==> 0.0 <= Mod360(x) < 360.0
    ensures x < 0.0 ==> -360.0 < Mod360(x) <= 0.0
    ensures 0.0 <= x < 360.0 ==> Mod360(x) == x
  {
  }

  lemma MulLess(m: real, a: real, b: real)
    requires m > 0.0 && a <= b
    ensures m * a <= m * b
    ensures a < b ==> m * a < m * b
  {
  }

  /** The middle of a canvas side of length x, where drawMandala moves the origin. */
  function Half(x: real): real {
    x / 2.0
  }

  /** A full turn, 2 * PI: the end angle of every circle the renderer draws. */
  function FullTurn(h: Host): real {
    h.pi * 2.0
  }

  /** The canvas rotation in radians: rotacao * PI / 180. */
  function Radians(degrees: real, pi: real): real {
    (degrees * pi) / 180.0
  }

  /** tamanho: the mandala radius, min(width, height) * 0.9 / 2 scaled by pulseScale (default 1). */
  function Tamanho(cfg: MandalaConfig): real {
    var pulse := match cfg.pulseScale case Some(s) => s case None => 1.0;
    (Min(cfg.width, cfg.height) * 0.9 / 2.0) * pulse
  }

  lemma TamanhoDefault(cfg: MandalaConfig)
    requires cfg.pulseScale == None
    ensures Tamanho(cfg) == Min(cfg.width, cfg.height) * 0.45
    ensures cfg.width > 0.0 && cfg.height > 0.0 ==> 0.0 < Tamanho(cfg) < cfg.width && Tamanho(cfg) < cfg.height
  {
  }

  /** raio: the outer radius of layer camada. */
  function Raio(tamanho: real, numCamadas: int, camada: int): real
    requires numCamadas > 0
  {
    (tamanho / numCamadas as real) * camada as real
  }

  /**
   * Layer radii grow linearly, by tamanho / numCamadas per layer, and the last
   * layer reaches tamanho; with a positive tamanho every layer radius lies in
   * (0, tamanho] and each is smaller than the next.
   */
  lemma RaioLinear(tamanho: real, numCamadas: int, camada: int)
    requires numCamadas > 0 && 1 <= camada <= numCamadas
    ensures camada < numCamadas ==>
              Raio(tamanho, numCamadas, camada + 1) - Raio(tamanho, numCamadas, camada) == tamanho / numCamadas as real
    ensures Raio(tamanho, numCamadas, numCamadas) == tamanho
    ensures tamanho > 0.0 ==> 0.0 < Raio(tamanho, numCamadas, camada) <= tamanho
    ensures tamanho > 0.0 && camada < numCamadas ==> Raio(tamanho, numCamadas, camada) < Raio(tamanho, numCamadas, camada + 1)
  {
    var step := tamanho / numCamadas as real;
    assert step * numCamadas as real == tamanho;
    if tamanho > 0.0 {
      assert step > 0.0;
      MulLess(step, 1.0, camada as real);
      MulLess(step, camada as real, numCamadas as real);
      if camada < numCamadas {
        MulLess(step, camada as real, (camada + 1) as real);
      }
    }
  }

  /** matiz: the hue of layer camada, (corBase + camada * 360 / numCamadas) % 360. */
  function Matiz(corBase: real, numCamadas: int, camada: int): real
    requires numCamadas > 0
  {
    Mod360(corBase + (camada as real * 360.0) / numCamadas as real)
  }

  lemma MatizInRange(corBase: real, numCamadas: int, camada: int)
    requires numCamadas > 0 && camada >= 1 && corBase >= 0.0
    ensures 0.0 <= Matiz(corBase, numCamadas, camada) < 360.0
  {
    assert (camada as real * 360.0) / numCamadas as real > 0.0;
    Mod360Range(corBase + (camada as real * 360.0) / numCamadas as real);
  }

  /** The density factor 1 + (complexidade - 1) * (1 - camada / numCamadas) * 0.5. */
  function PetalFactor(complexidade: real, numCamadas: int, camada: int): real
    requires numCamadas > 0
  {
    1.0 + (complexidade - 1.0) * (1.0 - camada as real / numCamadas as real) * 0.5
  }

  /** petalasCamada: the number of petals drawn on layer camada. */
  function PetalasCamada(numPetalas: int, complexidade: real, numCamadas: int, camada: int): int
    requires numCamadas > 0
  {
    (numPetalas as real * PetalFactor(complexidade, numCamadas, camada)).Floor
  }

  /**
   * With complexidade >= 1 every layer has at least numPetalas petals, the
   * outermost exactly numPetalas, and an inner layer never fewer than an outer one.
   */
  lemma PetalasCamadaBounds(numPetalas: int, complexidade: real, numCamadas: int, camada: int)
    requires numCamadas > 0 && 1 <= camada <= numCamadas
    requires complexidade >= 1.0 && numPetalas >= 0
    ensures PetalasCamada(numPetalas, complexidade, numCamadas, camada) >= numPetalas
    ensures PetalasCamada(numPetalas, complexidade, numCamadas, numCamadas) == numPetalas
    ensures camada < numCamadas ==>
      PetalasCamada(numPetalas, complexidade, numCamadas, camada) >= PetalasCamada(numPetalas, complexidade, numCamadas, camada + 1)
  {
    var n := numCamadas as real;
    var p := numPetalas as real;
    var c1 := complexidade - 1.0;
    var share := 1.0 - camada as real / n;
    assert camada as real / n <= 1.0 by {
      MulLess(1.0 / n, camada as real, n);
    }
    assert c1 * share >= 0.0;
    assert PetalFactor(complexidade, numCamadas, camada) >= 1.0;
    MulLess2(p, 1.0, PetalFactor(complexidade, numCamadas, camada));
    assert n / n == 1.0;
    assert PetalFactor(complexidade, numCamadas, numCamadas) == 1.0;
    if camada < numCamadas {
      var share' := 1.0 - (camada + 1) as real / n;
      assert share' <= share by {
        MulLess(1.0 / n, camada as real, (camada + 1) as real);
      }
      assert c1 * share' <= c1 * share by {
        MulLess2(c1, share', share);
      }
      MulLess2(p, PetalFactor(complexidade, numCamadas, camada + 1), PetalFactor(complexidade, numCamadas, camada));
    }
  }

  lemma MulLess2(m: real, a: real, b: real)
    requires m >= 0.0 && a <= b
    ensures m * a <= m * b
  {
  }
}
