/**
 * The drawing surface (QPainter on a pixmap or a printer). The model records
 * every call in a command log and keeps the painter's transform state: the
 * transform operations in force and the stack that `save`/`restore` push and
 * pop. Pixels are not modelled.
 */
module Painting {
  import opened Base
  import opened Pdf

  datatype TransformOp =
    | Translate(dx: real, dy: real)
    | Rotate(degrees: int)
    | Scale(sx: real, sy: real)

  datatype Command =
    | Save
    | Restore
    | Apply(op: TransformOp)
    | DrawPixmap(x: int, y: int, image: Raster)
    | DrawCanvas(x: int, y: int, canvas: Canvas)
    | NewPage

  /** A pixmap that was painted on: its size and what was drawn into it. */
  datatype Canvas = Canvas(width: int, height: int, commands: seq<Command>)

  /** The transform in force and the stack of saved transforms. */
  datatype PaintState = PaintState(transform: seq<TransformOp>, saved: seq<seq<TransformOp>>)

  /** What one command does to the painter's state. */
  function Step(st: PaintState, c: Command): PaintState {
    match c
    case Save => st.(saved := st.saved + [st.transform])
    case Restore =>
      // QPainter ignores an unbalanced restore
      if st.saved == [] then st
      else PaintState(st.saved[|st.saved| - 1], st.saved[..|st.saved| - 1])
    case Apply(op) => st.(transform := st.transform + [op])
    case _ => st
  }

  /** The state after running a whole log. */
  function Replay(st: PaintState, cmds: seq<Command>): PaintState
    decreases |cmds|
  {
    if cmds == [] then st else Replay(Step(st, cmds[0]), cmds[1..])
  }

  lemma {:induction false} ReplayAppend(st: PaintState, a: seq<Command>, b: seq<Command>)
    ensures Replay(st, a + b) == Replay(Replay(st, a), b)
    decreases |a|
  {
    if a == [] {
      assert a + b == b;
    } else {
      assert (a + b)[0] == a[0] && (a + b)[1..] == a[1..] + b;
      ReplayAppend(Step(st, a[0]), a[1..], b);
    }
  }

  /** The page indices of the rasters a log draws directly, in order. */
  function RasterPages(cmds: seq<Command>): seq<int>
    decreases |cmds|
  {
    if cmds == [] then []
    else (if cmds[0].DrawPixmap? then [cmds[0].image.page] else []) + RasterPages(cmds[1..])
  }

  /**
   * The page indices of the rasters a log draws, in order, including those
   * drawn into a composed canvas that the log then draws (the print path
   * composes each sheet on a pixmap first; canvases nest one level).
   */
  function DrawnPages(cmds: seq<Command>): seq<int>
    decreases |cmds|
  {
    if cmds == [] then [] else CommandPages(cmds[0]) + DrawnPages(cmds[1..])
  }

  /** The pages one command draws: its raster, or the rasters of the canvas it draws. */
  function CommandPages(c: Command): seq<int> {
    match c
    case DrawPixmap(_, _, img) => [img.page]
    case DrawCanvas(_, _, canvas) => RasterPages(canvas.commands)
    case _ => []
  }

  lemma {:induction false} DrawnPagesAppend(a: seq<Command>, b: seq<Command>)
    ensures DrawnPages(a + b) == DrawnPages(a) + DrawnPages(b)
    decreases |a|
  {
    if a == [] {
      assert a + b == b;
    } else {
      assert (a + b)[0] == a[0] && (a + b)[1..] == a[1..] + b;
      DrawnPagesAppend(a[1..], b);
      AppendAssociates(CommandPages(a[0]), DrawnPages(a[1..]), DrawnPages(b));
    }
  }

  lemma {:induction false} RasterPagesAppend(a: seq<Command>, b: seq<Command>)
    ensures RasterPages(a + b) == RasterPages(a) + RasterPages(b)
    decreases |a|
  {
    if a == [] {
      assert a + b == b;
    } else {
      assert (a + b)[0] == a[0] && (a + b)[1..] == a[1..] + b;
      RasterPagesAppend(a[1..], b);
      AppendAssociates(if a[0].DrawPixmap? then [a[0].image.page] else [], RasterPages(a[1..]), RasterPages(b));
    }
  }

  /** A log drawn into a canvas that is then drawn draws the log's rasters. */
  lemma CanvasPages(x: int, y: int, canvas: Canvas)
    ensures DrawnPages([DrawCanvas(x, y, canvas)]) == RasterPages(canvas.commands)
    ensures NewPages([DrawCanvas(x, y, canvas)]) == 0
    ensures forall st :: Replay(st, [DrawCanvas(x, y, canvas)]) == st
  {
    var one := [DrawCanvas(x, y, canvas)];
    assert one[1..] == [];
    assert DrawnPages(one) == RasterPages(canvas.commands) + [];
  }

  /** Runs that each draw their rasters directly still do so once concatenated. */
  lemma {:induction false} ConcatFlat(runs: seq<seq<Command>>)
    requires forall k :: 0 <= k < |runs| ==> RasterPages(runs[k]) == DrawnPages(runs[k])
    ensures RasterPages(Concat(runs)) == DrawnPages(Concat(runs))
    decreases |runs|
  {
    if runs != [] {
      var init := runs[..|runs| - 1];
      ConcatFlat(init);
      RasterPagesAppend(Concat(init), runs[|runs| - 1]);
      DrawnPagesAppend(Concat(init), runs[|runs| - 1]);
    }
  }

  /** How many times a log advances the device to a new page. */
  function NewPages(cmds: seq<Command>): nat
    decreases |cmds|
  {
    if cmds == [] then 0 else (if cmds[0].NewPage? then 1 else 0) + NewPages(cmds[1..])
  }

  lemma {:induction false} NewPagesAppend(a: seq<Command>, b: seq<Command>)
    ensures NewPages(a + b) == NewPages(a) + NewPages(b)
    decreases |a|
  {
    if a == [] {
      assert a + b == b;
    } else {
      assert (a + b)[0] == a[0] && (a + b)[1..] == a[1..] + b;
      NewPagesAppend(a[1..], b);
    }
  }

  /**
   * Drawing one raster centred at (cx, cy): save, translate to the centre,
   * rotate, scale isotropically, draw the raster with its own centre at the
   * origin (`int(-w / 2)`, `int(-h / 2)`), restore. Shared by the grid cell
   * (layout_handler.py) and the single-page display (display_handler.py).
   */
  function CentredDrawing(img: Raster, degrees: int, cx: real, cy: real, s: real): (cmds: seq<Command>)
    ensures DrawnPages(cmds) == [img.page]
    ensures NewPages(cmds) == 0
    ensures forall st :: Replay(st, cmds) == st
  {
    var draw := DrawPixmap(Trunc(-(img.width as real) / 2.0), Trunc(-(img.height as real) / 2.0), img);
    var cmds := [Save, Apply(Translate(cx, cy)), Apply(Rotate(degrees)), Apply(Scale(s, s)), draw, Restore];
    BracketedDrawing(cmds, img);
    cmds
  }

  /**
   * When the raster is drawn, the transform in force is the caller's
   * followed by translate, rotate and scale, in that order, and the raster's
   * top-left corner is at half its size up and to the left of the origin.
   */
  lemma CentredDrawingOrder(img: Raster, degrees: int, cx: real, cy: real, s: real, st: PaintState)
    ensures var cmds := CentredDrawing(img, degrees, cx, cy, s);
            cmds[4] == DrawPixmap(Trunc(-(img.width as real) / 2.0), Trunc(-(img.height as real) / 2.0), img) &&
            Replay(st, cmds[..4]) ==
              PaintState(st.transform + [Translate(cx, cy), Rotate(degrees), Scale(s, s)], st.saved + [st.transform])
  {
    var cmds := CentredDrawing(img, degrees, cx, cy, s);
    var prefix := cmds[..4];
    assert prefix[1..][1..][1..][1..] == [];
    var s1 := Step(st, Save);
    var s2 := Step(s1, Apply(Translate(cx, cy)));
    var s3 := Step(s2, Apply(Rotate(degrees)));
    var s4 := Step(s3, Apply(Scale(s, s)));
    assert s4.transform == st.transform + [Translate(cx, cy), Rotate(degrees), Scale(s, s)];
    assert Replay(s3, prefix[1..][1..][1..]) == s4;
    assert Replay(s2, prefix[1..][1..]) == s4;
    assert Replay(s1, prefix[1..]) == s4;
  }

  /** A centred drawing draws its raster directly, not through a canvas. */
  lemma CentredDrawingFlat(img: Raster, degrees: int, cx: real, cy: real, s: real)
    ensures RasterPages(CentredDrawing(img, degrees, cx, cy, s)) == [img.page]
  {
    var cmds := CentredDrawing(img, degrees, cx, cy, s);
    assert cmds[5..] == [Restore] && [Restore][1..] == [] && cmds[4..][1..] == cmds[5..];
    assert cmds[3..][1..] == cmds[4..] && cmds[2..][1..] == cmds[3..] && cmds[1..][1..] == cmds[2..];
    assert RasterPages(cmds[5..]) == [];
    assert RasterPages(cmds[4..]) == [img.page];
    assert RasterPages(cmds[3..]) == [img.page];
    assert RasterPages(cmds[2..]) == [img.page];
    assert RasterPages(cmds[1..]) == [img.page];
  }

  /** A save, three transform operations, one drawing and a restore leave the state as it was. */
  lemma BracketedDrawing(cmds: seq<Command>, img: Raster)
    requires |cmds| == 6 && cmds[0] == Save && cmds[1].Apply? && cmds[2].Apply? && cmds[3].Apply?
    requires cmds[4].DrawPixmap? && cmds[4].image == img && cmds[5] == Restore
    ensures DrawnPages(cmds) == [img.page] && NewPages(cmds) == 0
    ensures forall st :: Replay(st, cmds) == st
  {
    assert cmds[5..] == [Restore] && [Restore][1..] == [] && cmds[4..][1..] == cmds[5..];
    assert cmds[3..][1..] == cmds[4..] && cmds[2..][1..] == cmds[3..] && cmds[1..][1..] == cmds[2..];
    assert DrawnPages(cmds[5..]) == [] && NewPages(cmds[5..]) == 0;
    assert DrawnPages(cmds[4..]) == [img.page] && NewPages(cmds[4..]) == 0;
    assert DrawnPages(cmds[3..]) == [img.page] && NewPages(cmds[3..]) == 0;
    assert DrawnPages(cmds[2..]) == [img.page] && NewPages(cmds[2..]) == 0;
    assert DrawnPages(cmds[1..]) == [img.page] && NewPages(cmds[1..]) == 0;
    forall st ensures Replay(st, cmds) == st {
      var s1 := Step(st, Save);
      assert s1.saved[..|s1.saved| - 1] == st.saved;
      var s2 := Step(s1, cmds[1]);
      var s3 := Step(s2, cmds[2]);
      var s4 := Step(s3, cmds[3]);
      assert s4.saved == s1.saved;
      assert Replay(s4, cmds[5..]) == Step(s4, Restore);
      assert Replay(s4, cmds[4..]) == Replay(s4, cmds[5..]);
      assert Replay(s3, cmds[3..]) == Replay(s4, cmds[4..]);
      assert Replay(s2, cmds[2..]) == Replay(s3, cmds[3..]);
      assert Replay(s1, cmds[1..]) == Replay(s2, cmds[2..]);
    }
  }

  class Painter {
    /** Whether the painter's device is a printer (`isinstance(device, QPrinter)`). */
    const onPrinter: bool
    var log: seq<Command>
    var transform: seq<TransformOp>
    var saved: seq<seq<TransformOp>>

    function State(): PaintState
      reads this
    {
      PaintState(transform, saved)
    }

    constructor (onPrinter: bool)
      ensures this.onPrinter == onPrinter
      ensures log == [] && State() == PaintState([], [])
    {
      this.onPrinter := onPrinter;
      log := [];
      transform := [];
      saved := [];
    }

    method Save()
      modifies this
      ensures log == old(log) + [Command.Save] && State() == Step(old(State()), Command.Save)
    {
      saved := saved + [transform];
      log := log + [Command.Save];
    }

    method Restore()
      modifies this
      ensures log == old(log) + [Command.Restore] && State() == Step(old(State()), Command.Restore)
    {
      if saved != [] {
        transform := saved[|saved| - 1];
        saved := saved[..|saved| - 1];
      }
      log := log + [Command.Restore];
    }

    method Translate(dx: real, dy: real)
      modifies this
      ensures log == old(log) + [Apply(TransformOp.Translate(dx, dy))]
      ensures State() == Step(old(State()), Apply(TransformOp.Translate(dx, dy)))
    {
      transform := transform + [TransformOp.Translate(dx, dy)];
      log := log + [Apply(TransformOp.Translate(dx, dy))];
    }

    method Rotate(degrees: int)
      modifies this
      ensures log == old(log) + [Apply(TransformOp.Rotate(degrees))]
      ensures State() == Step(old(State()), Apply(TransformOp.Rotate(degrees)))
    {
      transform := transform + [TransformOp.Rotate(degrees)];
      log := log + [Apply(TransformOp.Rotate(degrees))];
    }

    method Scale(sx: real, sy: real)
      modifies this
      ensures log == old(log) + [Apply(TransformOp.Scale(sx, sy))]
      ensures State() == Step(old(State()), Apply(TransformOp.Scale(sx, sy)))
    {
      transform := transform + [TransformOp.Scale(sx, sy)];
      log := log + [Apply(TransformOp.Scale(sx, sy))];
    }

    method DrawPixmap(x: int, y: int, img: Raster)
      modifies this
      ensures log == old(log) + [Command.DrawPixmap(x, y, img)] && State() == old(State())
    {
      log := log + [Command.DrawPixmap(x, y, img)];
    }

    method DrawCanvas(x: int, y: int, canvas: Canvas)
      modifies this
      ensures log == old(log) + [Command.DrawCanvas(x, y, canvas)] && State() == old(State())
    {
      log := log + [Command.DrawCanvas(x, y, canvas)];
    }

    /** `printer.newPage()` on the device this painter draws on. */
    method NewPage()
      modifies this
      ensures log == old(log) + [Command.NewPage] && State() == old(State())
    {
      log := log + [Command.NewPage];
    }
  }

  // ---------------------------------------------------------------------
  // Where a transform sends a point. Qt's `rotate(a)` maps (x, y) to
  // (x cos a - y sin a, x sin a + y cos a); the model gives this meaning to
  // quarter turns, the only angles the rotation menu offers.

  datatype Point = Point(x: real, y: real)

  predicate QuarterTurn(degrees: int) { degrees % 90 == 0 }

  /** (cos, sin) of a quarter-turn angle. */
  function CosSin(degrees: int): (cs: (int, int))
    requires QuarterTurn(degrees)
    ensures cs.0 * cs.0 + cs.1 * cs.1 == 1
  {
    match (degrees / 90) % 4
    case 0 => (1, 0)
    case 1 => (0, 1)
    case 2 => (-1, 0)
    case _ => (0, -1)
  }

  predicate QuarterTurns(ops: seq<TransformOp>) {
    forall k :: 0 <= k < |ops| && ops[k].Rotate? ==> QuarterTurn(ops[k].degrees)
  }

  function ApplyOp(op: TransformOp, p: Point): Point
    requires op.Rotate? ==> QuarterTurn(op.degrees)
  {
    match op
    case Translate(dx, dy) => Point(p.x + dx, p.y + dy)
    case Scale(sx, sy) => Point(p.x * sx, p.y * sy)
    case Rotate(degrees) =>
      var (c, s) := CosSin(degrees);
      Point(p.x * c as real - p.y * s as real, p.x * s as real + p.y * c as real)
  }

  /**
   * Device coordinates of a point given in the local coordinates of a
   * transform: the operation applied last acts on the point first.
   */
  function MapPoint(ops: seq<TransformOp>, p: Point): Point
    requires QuarterTurns(ops)
    decreases |ops|
  {
    if ops == [] then p
    else MapPoint(ops[..|ops| - 1], ApplyOp(ops[|ops| - 1], p))
  }

  /** The centred-drawing transform: the scale acts first, then the turn, then the move. */
  lemma MapThree(cx: real, cy: real, degrees: int, s: real, p: Point)
    requires QuarterTurn(degrees)
    ensures QuarterTurns([Translate(cx, cy), Rotate(degrees), Scale(s, s)])
    ensures MapPoint([Translate(cx, cy), Rotate(degrees), Scale(s, s)], p)
         == ApplyOp(Translate(cx, cy), ApplyOp(Rotate(degrees), Point(p.x * s, p.y * s)))
  {
    var ops := [Translate(cx, cy), Rotate(degrees), Scale(s, s)];
    var scaled := Point(p.x * s, p.y * s);
    var turned := ApplyOp(Rotate(degrees), scaled);
    assert ops[..2] == [Translate(cx, cy), Rotate(degrees)];
    assert QuarterTurns(ops) && QuarterTurns(ops[..2]);
    assert ApplyOp(ops[2], p) == scaled;
    assert MapPoint(ops, p) == MapPoint(ops[..2], scaled);
    assert ops[..2][..1] == [Translate(cx, cy)];
    assert MapPoint(ops[..2], scaled) == MapPoint([Translate(cx, cy)], turned);
    assert [Translate(cx, cy)][..0] == [];
  }

  /** Upright or upside down: a rotation by 0 keeps a point, by 180 degrees mirrors it through the origin. */
  lemma HalfTurns(degrees: int, q: Point)
    requires degrees == 0 || degrees == 180
    ensures QuarterTurn(degrees)
    ensures ApplyOp(Rotate(degrees), q) == if degrees == 0 then q else Point(-q.x, -q.y)
  {
    if degrees == 0 {
      assert CosSin(degrees) == (1, 0);
    } else {
      assert CosSin(degrees) == (-1, 0);
    }
  }

  /** Where the centred-drawing transform with an upright or upside-down turn sends a raster point. */
  lemma MapCentredHalfTurn(cx: real, cy: real, degrees: int, s: real, p: Point)
    requires degrees == 0 || degrees == 180
    ensures QuarterTurns([Translate(cx, cy), Rotate(degrees), Scale(s, s)])
    ensures var q := MapPoint([Translate(cx, cy), Rotate(degrees), Scale(s, s)], p);
            q.x == cx + (if degrees == 0 then p.x * s else -(p.x * s)) &&
            q.y == cy + (if degrees == 0 then p.y * s else -(p.y * s))
  {
    var scaled := Point(p.x * s, p.y * s);
    HalfTurns(degrees, scaled);
    MapThree(cx, cy, degrees, s, p);
  }
}
