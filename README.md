# Mandala generator: Fibonacci snapping and the canvas renderer

A Dafny model of the drawing core of the mandala generator (govinda777/mandala):

- `src/lib/mandala-math.ts`: the fixed list of admissible petal counts
  `[3, 5, 8, 13, 21, 34, 55, 89]` and `getNearestFibonacci`, which snaps a number
  to the list with `Array.prototype.reduce` and a strict `<`. In Dafny this is
  module `MandalaMath`: `Reduce` is the left fold, `NearestFibonacci` seeds it with
  the first element, and `IsFirstNearest` is an independent definition of the
  intended answer, "the first element at minimal distance". The lemmas prove that
  the two agree, in both directions, and derive membership, minimality,
  the tie-break towards the earlier element (4 snaps to 3), clamping at both
  ends, idempotence, monotonicity and the spot values of the repository's tests.
- `src/lib/mandala-renderer.ts`: `drawMandala` and its helpers `drawPetals`,
  `drawDetailPattern`, `drawCentralCircles`, `drawFlowerOfLifeOverlay`,
  `drawGoldenSpiral` and `drawFractalOverlay`. They issue calls on a canvas 2D
  context one at a time, so they are methods (module `MandalaRenderer`) that take
  the context, an object of class `Context` (module `Canvas`), and update it in
  place. The class records every call in its `log`.
  Assigning `fillStyle`, `strokeStyle`, `lineWidth`, `shadowColor`, `shadowBlur`
  or `globalCompositeOperation` is recorded as a call too. The methods keep the
  source's loops, guards, early `break` and call order.

What the renderer draws is also described as a value. Module `MandalaScene`
gives a `Scene` of layers, petals, motifs, rings, spokes and overlays, built from
the configuration by pure functions that hold the source's formulas: layer
radius, hue, petal count, control points, ring radii, spoke angles and the
overlay parameters. Module `SceneCommands` gives the calls that draw each part
of a scene. Module `RenderMath` holds `MandalaConfig` and the per-layer
arithmetic.

Every drawing method is proved to append exactly the calls that draw its part of
the scene. `DrawMandala` appends `SceneCmds(SceneOf(cfg, h))`. What is proved of
scenes therefore holds of what the renderer does:

- exactly `numCamadas` layers, each with `petalasCamada` petals;
- with complexidade >= 1 and numPetalas >= 0, petal counts bounded below by `numPetalas`, reached on the outermost layer;
- with corBase >= 0, layer gradient stops and disc fills with hues in [0, 360)
  (the decorative-line hue is `parseInt` of the layer hue plus 30, unreduced, so it can reach 389);
- motif rings on even layers only, with the kind chosen by `i % 3`;
- strictly shrinking central rings that stop at the first non-positive radius;
- the overlays gated by their flags and drawn in a fixed order;
- the opening `clearRect`/`save`/`translate`/`rotate` and the closing `restore`.

A replay semantics of the context's `save()`/`restore()` stack (`Canvas.Exec`)
shows that a render pass leaves every style, the transform and the stack of
saved states as it found them.

`Math.PI`, `Math.cos`, `Math.sin`, `Math.sqrt` and the three point generators
are not defined by the core. The renderer imports the generators
(`calculateFlowerOfLifeCenters`, `calculateGoldenSpiral`,
`calculateFractalCircles`) by name. All of them are fields of a `Host` value
passed to every operation. Numbers are modelled as Dafny `real`s (exact) and the
two counts as `int`s.

Notes on the code:

- `getNearestFibonacci`'s parameter is a `number`; the model takes integers, the
  inputs the repository's tests pass (src/test/mandala-math.test.ts:21-43) and the
  ones the same reduce receives in the user interface, slider values and a floored
  random count (src/components/MandalaGenerator.tsx:16-40).
- `drawFlowerOfLifeOverlay` receives `complexidade` but never reads it, so
  `DrawFlowerOfLifeOverlay` has no such parameter.
- A petal's decorative line `j` is drawn only while
  `raioExterno * (0.3 + 0.2 j) < raioExterno`, so a petal never gets more than
  three lines, whatever `complexidade` is. `LinesUpTo` and `PetalsOf` state the
  count as `Min3(floor(complexidade))`.

## Model

| member | source | states |
|---|---|---|
| MandalaMath.FibonacciIncreasing | src/lib/mandala-math.ts:4 | the admissible petal counts are strictly increasing |
| MandalaMath.FoldStep | src/lib/mandala-math.ts:12-14 | one reducer step keeps "the running best is the first element at minimal distance among those seen"; the strict `<` keeps the incumbent on ties |
| MandalaMath.FoldFirstNearest | src/lib/mandala-math.ts:12-14 | folding the rest of the list into such a running best yields the first nearest element of the whole list |
| MandalaMath.NearestIsFirstClosest | src/lib/mandala-math.ts:11-15 | getNearestFibonacci(n) is the first list element whose distance to n is minimal (every earlier element is strictly farther) |
| MandalaMath.NearestIsTheFirstNearest | src/lib/mandala-math.ts:11-15 | conversely, any index that is the first nearest one is the element getNearestFibonacci returns |
| MandalaMath.NearestIsMemberAndMinimal | src/lib/mandala-math.ts:11-15 | the result is in the list and no list element is closer to n |
| MandalaMath.NearestOfMember | src/test/mandala-math.test.ts:20-24 | every listed Fibonacci number snaps to itself |
| MandalaMath.NearestIdempotent | src/lib/mandala-math.ts:11-15 | snapping twice equals snapping once |
| MandalaMath.NearestClamps | src/test/mandala-math.test.ts:38-44 | inputs at or below 3 give 3, inputs at or above 89 give 89 |
| MandalaMath.NearestMonotone | src/lib/mandala-math.ts:11-15 | a larger input never snaps to a smaller value |
| MandalaMath.NearestSpotValues | src/lib/mandala-math.test.ts:6-31 | 1, 3, 4 give 3 (the tie 4 goes to 3); 5, 6 give 5; 7, 10 give 8; 11, 12, 13 give 13; 21 gives 21; 89 and 100 give 89 |
| RenderMath.Mod360Range | src/lib/mandala-renderer.ts:51-53 | JavaScript's `x % 360` keeps a non-negative hue in [0, 360), a negative one in (-360, 0], and leaves [0, 360) unchanged |
| RenderMath.TamanhoDefault | src/lib/mandala-renderer.ts:32-35 | without pulseScale, tamanho = min(width, height) * 0.45, positive and below both sides on a non-empty canvas |
| RenderMath.RaioLinear | src/lib/mandala-renderer.ts:48 | for every layer 1..numCamadas (a single layer included): radii grow by tamanho / numCamadas per layer, the last reaches tamanho, and with tamanho > 0 every radius lies in (0, tamanho], each below the next |
| RenderMath.MatizInRange | src/lib/mandala-renderer.ts:51 | with corBase >= 0 every layer hue lies in [0, 360) |
| RenderMath.PetalasCamadaBounds | src/lib/mandala-renderer.ts:56-58 | with complexidade >= 1 every layer has at least numPetalas petals, the outermost exactly numPetalas, and no layer fewer than the next one out |
| MandalaScene.LineFits | src/lib/mandala-renderer.ts:209-210 | decorative line j (j >= 1) of a petal of positive radius is drawn exactly when j <= 3 |
| MandalaScene.LinesUpTo | src/lib/mandala-renderer.ts:205-227 | a petal of positive radius gets min(k, 3) of its lines 1..k, and never more than k |
| MandalaScene.PetalsOf | src/lib/mandala-renderer.ts:146-229 | n petals (none for n <= 0), petal i at angle i * 2PI/n, all with the layer gradient; a dot exactly when the outer radius exceeds 50, then min(floor(complexidade), 3) lines when complexidade > 1.2 |
| MandalaScene.MotifsOf | src/lib/mandala-renderer.ts:238-271 | n motifs, motif i at angle i * 2PI/n, a circle, diamond or ray exactly as i % 3 is 0, 1 or 2 |
| MandalaScene.LayersOf | src/lib/mandala-renderer.ts:46-84 | exactly numCamadas layers (none when numCamadas <= 0), element k being layer k + 1 |
| MandalaScene.LayerShape | src/lib/mandala-renderer.ts:56-83 | a layer's petal count bounds as above; its motif ring has twice as many elements as it has petals, and only on even layers when complexidade > 1.5; its disc has 0.4 of the layer radius |
| MandalaScene.LayerHues | src/lib/mandala-renderer.ts:51-74 | with corBase >= 0 the petal gradient stops and the disc fill of every layer have hues in [0, 360) |
| MandalaScene.LayerArcsNonNegative | src/lib/mandala-renderer.ts:71-83 | with tamanho >= 0 every layer disc and every motif dot passes a non-negative radius to arc() |
| MandalaScene.FirstLayerRadiiNegative | src/lib/mandala-renderer.ts:48-78 | with tamanho < 0 and at least one layer, the first layer's first petal (if any) gets a radial gradient with negative inner and outer radii, and its disc a negative arc radius |
| MandalaScene.RingRadiusDecreasing | src/lib/mandala-renderer.ts:287 | with tamanho > 0 each ring radius is strictly smaller than the one before |
| MandalaScene.RingStop | src/lib/mandala-renderer.ts:286-288 | where the ring loop stops: never past numCirculos, every ring before it has a positive radius, and an early stop is at a non-positive radius |
| MandalaScene.RingStopFrom | src/lib/mandala-renderer.ts:286-288 | resuming the ring loop at any index it has passed stops at the same place |
| MandalaScene.RingsOf | src/lib/mandala-renderer.ts:283-306 | at most numCirculos rings, ring k with radius tamanho * (0.1 - 0.015 k / sqrt(complexidade)) and its fill by index, all positive, and fewer only when the next radius is <= 0 |
| MandalaScene.RingsShrink | src/lib/mandala-renderer.ts:286-288 | with tamanho > 0 the drawn rings shrink strictly; with tamanho <= 0 none is drawn |
| MandalaScene.SpokesOf | src/lib/mandala-renderer.ts:316-331 | floor(numPetalas * 1.5) spokes, spoke i at angle i * 2PI/numRaios from raioInt / 2 to raioInt = tamanho * 0.15 |
| MandalaScene.CentralOf | src/lib/mandala-renderer.ts:283-332 | at most floor(numCamadas * complexidade) rings; spokes only when complexidade > 1.7, then floor(numPetalas * 1.5) of them |
| MandalaScene.OverlaysOrder | src/lib/mandala-renderer.ts:89-99 | each overlay appears exactly when its flag is set, at most once, in the order flower of life, golden spiral, fractal |
| MandalaScene.OverlayParameters | src/lib/mandala-renderer.ts:105-120 | the overlay arguments: flower circles of radius tamanho / 3 on 3 rings (lines 347-352), a 4-turn spiral of radius tamanho (lines 375-376), a 6-branch fractal from tamanho / 4, 3 levels deep exactly when complexidade > 2, else 2 |
| SceneCommands.FlowerRestores | src/lib/mandala-renderer.ts:354-366 | the flower overlay's calls are wrapped in save()/restore(), never clear, and leave the drawing state as they found it |
| SceneCommands.SpiralRestores | src/lib/mandala-renderer.ts:378-397 | the spiral's calls (shadow included) are wrapped in save()/restore(), never clear, and leave the drawing state as they found it |
| SceneCommands.FractalRestores | src/lib/mandala-renderer.ts:122-134 | the fractal's calls are wrapped in save()/restore(), never clear, and leave the drawing state as they found it |
| SceneCommands.OverlaysRestore | src/lib/mandala-renderer.ts:89-99 | any sequence of overlays is balanced, never clears, and leaves the drawing state as it found it |
| SceneCommands.SceneShift | src/lib/mandala-renderer.ts:17-103 | a render pass appends the same calls whatever the log held: the opening four calls, the body, and restore() |
| SceneCommands.SceneShape | src/lib/mandala-renderer.ts:38-102 | a render pass starts with clearRect(0, 0, width, height), save(), translate(width / 2, height / 2), rotate(rotation); ends with restore(); never clears again; its saves and restores match |
| SceneCommands.SceneRestoresState | src/lib/mandala-renderer.ts:41-102 | replaying a render pass returns the styles, transform and stack of saved states it started from |
| MandalaRenderer.DrawPetalOutline | src/lib/mandala-renderer.ts:163-189 | appends the petal outline: two quadratic curves through the control point, filled with the gradient and stroked in translucent white |
| MandalaRenderer.DrawDot | src/lib/mandala-renderer.ts:194-203 | appends one filled full circle |
| MandalaRenderer.DrawPetal | src/lib/mandala-renderer.ts:149-228 | appends exactly the calls of the petal at that angle: outline, then dot and lines under their guards |
| MandalaRenderer.DrawLine | src/lib/mandala-renderer.ts:211-224 | appends one stroked segment |
| MandalaRenderer.DrawPetalLines | src/lib/mandala-renderer.ts:205-227 | appends the lines LinesUpTo selects, in order of j |
| MandalaRenderer.DrawPetals | src/lib/mandala-renderer.ts:137-230 | appends the petals of PetalsOf in order |
| MandalaRenderer.DrawDetailDot | src/lib/mandala-renderer.ts:249-253 | appends the small filled circle of radius raio * 0.05 |
| MandalaRenderer.DrawDetailDiamond | src/lib/mandala-renderer.ts:254-262 | appends the closed, filled diamond of half-diagonal raio * 0.06 |
| MandalaRenderer.DrawDetailRay | src/lib/mandala-renderer.ts:263-270 | appends the stroked ray from 0.8 to 1.1 of the motif's position |
| MandalaRenderer.DrawMotif | src/lib/mandala-renderer.ts:241-270 | appends motif i, its kind chosen by i % 3 |
| MandalaRenderer.DrawDetailPattern | src/lib/mandala-renderer.ts:232-272 | appends the motifs of MotifsOf in order |
| MandalaRenderer.DrawRing | src/lib/mandala-renderer.ts:290-305 | appends ring i, filled by index and stroked |
| MandalaRenderer.DrawRings | src/lib/mandala-renderer.ts:283-306 | appends the rings of RingsOf, leaving the loop at the first non-positive radius |
| MandalaRenderer.DrawSpoke | src/lib/mandala-renderer.ts:321-330 | appends spoke i |
| MandalaRenderer.DrawSpokes | src/lib/mandala-renderer.ts:315-332 | appends the spokes of SpokesOf in order |
| MandalaRenderer.DrawCentralCircles | src/lib/mandala-renderer.ts:274-333 | appends the rings, the centre dot of radius 5, and the spokes when complexidade > 1.7 |
| MandalaRenderer.DrawFlowerOfLifeOverlay | src/lib/mandala-renderer.ts:335-367 | appends save(), the overlay's styles, one outline per centre from the generator, restore() |
| MandalaRenderer.DrawGoldenSpiral | src/lib/mandala-renderer.ts:369-398 | appends save(), the styles, one polyline through the generated points (none when there are none), stroke, restore() |
| MandalaRenderer.DrawFractalOverlay | src/lib/mandala-renderer.ts:105-135 | appends save(), the styles, one outlined and tinted circle per generated circle, restore() |
| MandalaRenderer.DrawDisc | src/lib/mandala-renderer.ts:71-78 | appends the layer disc of radius 0.4 raio, filled at hue matiz + 60 and stroked |
| MandalaRenderer.DrawLayer | src/lib/mandala-renderer.ts:47-83 | appends the layer: its petals, its disc, and its motif ring on even layers when complexidade > 1.5 |
| MandalaRenderer.DrawLayers | src/lib/mandala-renderer.ts:45-84 | appends the layers of LayersOf, innermost first |
| MandalaRenderer.DrawOverlays | src/lib/mandala-renderer.ts:89-99 | appends the overlays of OverlaysOf in order |
| MandalaRenderer.DrawMandala | src/lib/mandala-renderer.ts:17-103 | for tamanho >= 0, appends exactly the calls of SceneOf(cfg, h) and leaves the context's drawing state and saved-state stack as they were |

## Left out

- Floating point is not modelled: numbers are exact reals, so rounding, NaN and Infinity are not captured. The trigonometric functions, `Math.sqrt` and `Math.PI` are arbitrary host values.
- MandalaRenderer.DrawMandala: requires `tamanho >= 0`. With a negative width, height or pulseScale the first layer's radius is negative (see `FirstLayerRadiiNegative`). Its first petal then calls `createRadialGradient` with negative radii (src/lib/mandala-renderer.ts:152-159), or, when the layer has no petals, its disc calls `arc` with a negative radius (src/lib/mandala-renderer.ts:73). Either call makes the canvas throw IndexSizeError. That happens after the `save()`, `translate` and `rotate` of lines 41-43, so the saved state stays on the stack and the transform stays applied. This exception is not modelled; every caller passes a canvas size, which is never negative.
- MandalaRenderer.DrawFractalOverlay: a generated fractal circle of negative radius makes `arc` throw in the same way (src/lib/mandala-renderer.ts:128). The generators are host values here, so this exception is not modelled either.
- MandalaRenderer.DrawMandala: when rings are drawn (`floor(numCamadas * complexidade) > 0`), requires the host's `sqrt(complexidade) > 0`, because the ring radius divides by it. With numCamadas >= 1 that holds for every positive complexidade (the interface offers 1 to 3). It fails only when both numCamadas and complexidade are negative, and then JavaScript computes NaN. With no rings, `Math.sqrt` is never called and nothing is required. MandalaRenderer.DrawCentralCircles and MandalaRenderer.DrawRings carry the same conditional requirement.
- MandalaScene.Sector: for a ring of 0 elements JavaScript computes `2PI / 0 = Infinity`. The model uses 0 there, which is never read because such a ring draws nothing.
- MandalaScene.LinePaint: `parseInt(corInterna.slice(4))` is modelled as truncation toward zero of the hue. A hue that JavaScript prints in exponent notation (below 1e-6) would parse differently.
- The point generators (`calculateFlowerOfLifeCenters`, `calculateGoldenSpiral`, `calculateFractalCircles`) are not part of this model. The renderer's calls to them are modelled with their arguments, and their results are whatever the host supplies.
- `getNearestFibonacci` on non-integer inputs: the model takes integers, as noted above.
- Non-integer `numPetalas` and `numCamadas` are not modelled: both are `int`s. A fractional count would change `Math.floor(numPetalas * ...)`, the `camada <= numCamadas` loop bound and the divisions by `numCamadas`. Every caller passes integers.
- The canvas is modelled only as far as the renderer uses it. The calls are recorded, and a replay semantics covers the styles, the transform list and the save/restore stack. Pixels and the gradient object are not modelled: `createRadialGradient` and `addColorStop` become a `RadialGradient` paint value.
- Colour strings are modelled as structured paint values (`Hsl`, `Hsla`, `Rgba`, `Named`), not as text.
- The user interface (`MandalaGenerator.tsx`, `App.tsx`), image export (`mandala-export.ts`), the animation and pulse computation that produces `pulseScale`, the tessellation and planetary helpers, and the Python verification scripts are outside the drawing core.
