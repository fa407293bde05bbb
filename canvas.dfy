/**
 * The part of a 2D canvas drawing context that the renderer uses
 * (CanvasRenderingContext2D): every call is recorded in a log, and the
 * save/restore stack of drawing states is given a replay semantics.
 */
module Canvas {

  datatype Option<T> = None | Some(value: T)

  /** A colour or gradient, as the renderer writes it into fillStyle / strokeStyle. */
  datatype Paint =
    | Named(name: string)
    | Rgba(r: int, g: int, b: int, alpha: real)
    | Hsl(hue: real, sat: int, light: int)
    | Hsla(hue: real, sat: int, light: int, alpha: real)
      /** createRadialGradient(x0, y0, r0, x1, y1, r1) with color stops at 0 and 1 */
    | RadialGradient(x0: real, y0: real, r0: real, x1: real, y1: real, r1: real, stop0: Paint, stop1: Paint)

  /** One call on the drawing context; assignments to its style properties are calls too. */
  datatype Cmd =
    | ClearRect(x: real, y: real, w: real, h: real)
    | Save
    | Restore
    | Translate(x: real, y: real)
    | Rotate(angle: real)
    | BeginPath
    | MoveTo(x: real, y: real)
    | LineTo(x: real, y: real)
    | QuadraticCurveTo(cpx: real, cpy: real, x: real, y: real)
    | Arc(x: real, y: real, radius: real, startAngle: real, endAngle: real)
    | ClosePath
    | Fill
    | Stroke
    | SetFillStyle(paint: Paint)
    | SetStrokeStyle(paint: Paint)
    | SetLineWidth(width: real)
    | SetShadowColor(paint: Paint)
    | SetShadowBlur(blur: real)
    | SetGlobalCompositeOperation(op: string)

  datatype Transform = Translation(dx: real, dy: real) | Rotation(angle: real)

  /** The drawing state that save() pushes and restore() pops. */
  datatype DrawState = DrawState(
    fillStyle: Paint,
    strokeStyle: Paint,
    lineWidth: real,
    shadowColor: Paint,
    shadowBlur: real,
    composite: string,
    transform: seq<Transform>)

  /** The current drawing state and the stack of saved ones (top at the end). */
  datatype Gfx = Gfx(state: DrawState, stack: seq<DrawState>)

  /** A fresh context: the canvas defaults and an empty stack. */
  const Fresh: Gfx := Gfx(DrawState(Named("#000000"), Named("#000000"), 1.0, Rgba(0, 0, 0, 0.0), 0.0, "source-over", []), [])

  predicate IsStackOp(c: Cmd) {
    c.Save? || c.Restore?
  }

  /** No save() and no restore() anywhere in t. */
  predicate StackFree(t: seq<Cmd>) {
    forall c :: c in t ==> !IsStackOp(c)
  }

  /** The effect of one call on the drawing state; restore() on an empty stack does nothing. */
  function Step(g: Gfx, c: Cmd): Gfx {
    match c
    case Save => Gfx(g.state, g.stack + [g.state])
    case Restore => if g.stack == [] then g else Gfx(g.stack[|g.stack| - 1], g.stack[..|g.stack| - 1])
    case Translate(x, y) => g.(state := g.state.(transform := g.state.transform + [Translation(x, y)]))
    case Rotate(a) => g.(state := g.state.(transform := g.state.transform + [Rotation(a)]))
    case SetFillStyle(p) => g.(state := g.state.(fillStyle := p))
    case SetStrokeStyle(p) => g.(state := g.state.(strokeStyle := p))
    case SetLineWidth(w) => g.(state := g.state.(lineWidth := w))
    case SetShadowColor(p) => g.(state := g.state.(shadowColor := p))
    case SetShadowBlur(b) => g.(state := g.state.(shadowBlur := b))
    case SetGlobalCompositeOperation(op) => g.(state := g.state.(composite := op))
    case _ => g
  }

  /** Replaying a sequence of calls from a drawing state. */
  function Exec(g: Gfx, t: seq<Cmd>): Gfx
    decreases |t|
  {
    if t == [] then g else Exec(Step(g, t[0]), t[1..])
  }

  /**
   * Save/restore matching: starting with `open` unmatched saves, Balance returns
   * None when some restore() has no save() to match, else the number left open.
   */
  function Balance(t: seq<Cmd>, open: nat): Option<nat>
    decreases |t|
  {
    if t == [] then Some(open)
    else if t[0].Save? then Balance(t[1..], open + 1)
    else if t[0].Restore? then (if open == 0 then None else Balance(t[1..], open - 1))
    else Balance(t[1..], open)
  }

  /** Every restore() matches an earlier save() of t, and every save() is restored. */
  predicate Balanced(t: seq<Cmd>) {
    Balance(t, 0) == Some(0)
  }

  lemma {:induction false} ExecAppend(g: Gfx, a: seq<Cmd>, b: seq<Cmd>)
    ensures Exec(g, a + b) == Exec(Exec(g, a), b)
    decreases |a|
  {
    if a == [] {
      assert a + b == b;
    } else {
      assert (a + b)[1..] == a[1..] + b;
      ExecAppend(Step(g, a[0]), a[1..], b);
    }
  }

  lemma {:induction false} BalanceAppend(a: seq<Cmd>, b: seq<Cmd>, open: nat)
    ensures Balance(a + b, open) == match Balance(a, open) case None => None case Some(o) => Balance(b, o)
    decreases |a|
  {
    if a == [] {
      assert a + b == b;
    } else {
      assert (a + b)[1..] == a[1..] + b;
      if a[0].Save? {
        BalanceAppend(a[1..], b, open + 1);
      } else if a[0].Restore? {
        if open > 0 { BalanceAppend(a[1..], b, open - 1); }
      } else {
        BalanceAppend(a[1..], b, open);
      }
    }
  }

  /** Extra saves that are already open do not change whether t matches up. */
  lemma {:induction false} BalanceShift(t: seq<Cmd>, open: nat, o: nat, k: nat)
    requires Balance(t, open) == Some(o)
    ensures Balance(t, open + k) == Some(o + k)
    decreases |t|
  {
    if t != [] {
      if t[0].Save? {
        BalanceShift(t[1..], open + 1, o, k);
      } else if t[0].Restore? {
        BalanceShift(t[1..], open - 1, o, k);
      } else {
        BalanceShift(t[1..], open, o, k);
      }
    }
  }

  /** A call sequence without save() and restore() leaves the count of open saves alone. */
  lemma {:induction false} StackFreeBalance(t: seq<Cmd>, open: nat)
    requires StackFree(t)
    ensures Balance(t, open) == Some(open)
    decreases |t|
  {
    if t != [] {
      assert t[0] in t;
      assert forall c :: c in t[1..] ==> c in t;
      StackFreeBalance(t[1..], open);
    }
  }

  lemma BalancedConcat(a: seq<Cmd>, b: seq<Cmd>)
    requires Balanced(a) && Balanced(b)
    ensures Balanced(a + b)
  {
    BalanceAppend(a, b, 0);
  }

  /** Wrapping a balanced sequence in save() ... restore() keeps it balanced. */
  lemma BalancedWrap(t: seq<Cmd>)
    requires Balanced(t)
    ensures Balanced([Save] + t + [Restore])
  {
    BalanceShift(t, 0, 0, 1);
    BalanceAppend([Save], t + [Restore], 0);
    BalanceAppend(t, [Restore], 1);
    assert [Save] + t + [Restore] == [Save] + (t + [Restore]);
  }

  /**
   * Replaying t, whose saves and restores match up with `open` saves already open,
   * keeps the part of the stack below those open saves and ends with `o` open.
   */
  lemma {:induction false} ExecKeepsStackBase(g: Gfx, t: seq<Cmd>, open: nat, o: nat)
    requires Balance(t, open) == Some(o) && open <= |g.stack|
    ensures |Exec(g, t).stack| == |g.stack| - open + o
    ensures Exec(g, t).stack[..|g.stack| - open] == g.stack[..|g.stack| - open]
    decreases |t|
  {
    if t != [] {
      var g' := Step(g, t[0]);
      if t[0].Save? {
        ExecKeepsStackBase(g', t[1..], open + 1, o);
        assert g'.stack[..|g.stack| - open] == g.stack[..|g.stack| - open];
      } else if t[0].Restore? {
        ExecKeepsStackBase(g', t[1..], open - 1, o);
        assert g'.stack[..|g.stack| - open] == g.stack[..|g.stack| - open];
      } else {
        ExecKeepsStackBase(g', t[1..], open, o);
      }
    }
  }

  /** A balanced sequence leaves the saved-state stack as it found it. */
  lemma ExecBalancedStack(g: Gfx, t: seq<Cmd>)
    requires Balanced(t)
    ensures Exec(g, t).stack == g.stack
  {
    ExecKeepsStackBase(g, t, 0, 0);
  }

  /**
   * save(); t; restore() with t balanced undoes every change t makes to the drawing
   * state: styles, shadow, compositing and transform are back, and so is the stack.
   */
  lemma ExecWrapRestores(g: Gfx, t: seq<Cmd>)
    requires Balanced(t)
    ensures Exec(g, [Save] + t + [Restore]) == g
  {
    var g1 := Step(g, Save);
    assert Exec(g, [Save]) == g1;
    ExecAppend(g, [Save], t);
    ExecBalancedStack(g1, t);
    ExecAppend(g, [Save] + t, [Restore]);
    assert Exec(Exec(g1, t), [Restore]) == Step(Exec(g1, t), Restore);
  }

  /**
   * The drawing context, as far as the renderer can observe it: the calls made
   * on it since it was created, in order. Its drawing state is what replaying
   * those calls gives.
   */
  class Context {
    var log: seq<Cmd>

    /** The drawing state reached by replaying the log from a fresh context. */
    ghost function Replay(): Gfx
      reads this
    {
      Exec(Fresh, log)
    }

    constructor ()
      ensures log == [] && Replay() == Fresh
    {
      log := [];
    }

    method ClearRect(x: real, y: real, w: real, h: real)
      modifies this
      ensures log == old(log) + [Cmd.ClearRect(x, y, w, h)]
    {
      log := log + [Cmd.ClearRect(x, y, w, h)];
    }

    /** pushes a copy of the drawing state */
    method Save()
      modifies this
      ensures log == old(log) + [Cmd.Save]
    {
      log := log + [Cmd.Save];
    }

    /** pops the last saved drawing state; on an empty stack it does nothing */
    method Restore()
      modifies this
      ensures log == old(log) + [Cmd.Restore]
    {
      log := log + [Cmd.Restore];
    }

    method Translate(x: real, y: real)
      modifies this
      ensures log == old(log) + [Cmd.Translate(x, y)]
    {
      log := log + [Cmd.Translate(x, y)];
    }

    method Rotate(angle: real)
      modifies this
      ensures log == old(log) + [Cmd.Rotate(angle)]
    {
      log := log + [Cmd.Rotate(angle)];
    }

    method BeginPath()
      modifies this
      ensures log == old(log) + [Cmd.BeginPath]
    {
      log := log + [Cmd.BeginPath];
    }

    method MoveTo(x: real, y: real)
      modifies this
      ensures log == old(log) + [Cmd.MoveTo(x, y)]
    {
      log := log + [Cmd.MoveTo(x, y)];
    }

    method LineTo(x: real, y: real)
      modifies this
      ensures log == old(log) + [Cmd.LineTo(x, y)]
    {
      log := log + [Cmd.LineTo(x, y)];
    }

    method QuadraticCurveTo(cpx: real, cpy: real, x: real, y: real)
      modifies this
      ensures log == old(log) + [Cmd.QuadraticCurveTo(cpx, cpy, x, y)]
    {
      log := log + [Cmd.QuadraticCurveTo(cpx, cpy, x, y)];
    }

    method Arc(x: real, y: real, radius: real, startAngle: real, endAngle: real)
      modifies this
      ensures log == old(log) + [Cmd.Arc(x, y, radius, startAngle, endAngle)]
    {
      log := log + [Cmd.Arc(x, y, radius, startAngle, endAngle)];
    }

    method ClosePath()
      modifies this
      ensures log == old(log) + [Cmd.ClosePath]
    {
      log := log + [Cmd.ClosePath];
    }

    method Fill()
      modifies this
      ensures log == old(log) + [Cmd.Fill]
    {
      log := log + [Cmd.Fill];
    }

    method Stroke()
      modifies this
      ensures log == old(log) + [Cmd.Stroke]
    {
      log := log + [Cmd.Stroke];
    }

    /** fillStyle = p */
    method SetFillStyle(p: Paint)
      modifies this
      ensures log == old(log) + [Cmd.SetFillStyle(p)]
    {
      log := log + [Cmd.SetFillStyle(p)];
    }

    /** strokeStyle = p */
    method SetStrokeStyle(p: Paint)
      modifies this
      ensures log == old(log) + [Cmd.SetStrokeStyle(p)]
    {
      log := log + [Cmd.SetStrokeStyle(p)];
    }

    /** lineWidth = w */
    method SetLineWidth(w: real)
      modifies this
      ensures log == old(log) + [Cmd.SetLineWidth(w)]
    {
      log := log + [Cmd.SetLineWidth(w)];
    }

    /** shadowColor = p */
    method SetShadowColor(p: Paint)
      modifies this
      ensures log == old(log) + [Cmd.SetShadowColor(p)]
    {
      log := log + [Cmd.SetShadowColor(p)];
    }

    /** shadowBlur = b */
    method SetShadowBlur(b: real)
      modifies this
      ensures log == old(log) + [Cmd.SetShadowBlur(b)]
    {
      log := log + [Cmd.SetShadowBlur(b)];
    }

    /** globalCompositeOperation = op */
    method SetGlobalCompositeOperation(op: string)
      modifies this
      ensures log == old(log) + [Cmd.SetGlobalCompositeOperation(op)]
    {
      log := log + [Cmd.SetGlobalCompositeOperation(op)];
    }
  }
}
