/** The drawing-attribute parser of `xdot.py`: a cursor over the text of
    one `_draw_`-style attribute, read token by token, turning each drawing
    opcode into a shape drawn with a snapshot of the current pen. */
module XDot {
  import opened Wrappers
  import opened PyStr

  type Colour = (real, real, real, real)

  /** The drawing state: colours, line width and font. Being a value, a
      shape that holds one keeps it as it was when the shape was made,
      which is what `Pen.copy` achieves in the source. */
  datatype Pen = Pen(color: Colour, fillcolor: Colour, linewidth: real, fontsize: real, fontname: string)

  /** `Pen()`: black, one unit wide, 14-point Times-Roman. */
  const DefaultPen := Pen((0.0, 0.0, 0.0, 1.0), (0.0, 0.0, 0.0, 1.0), 1.0, 14.0, "Times-Roman")

  type Point = (real, real)

  /** The shapes the parser makes, each with its pen. */
  datatype Shape =
    | TextShape(pen: Pen, x: real, y: real, j: int, w: int, t: string)
    | EllipseShape(pen: Pen, x0: real, y0: real, w: int, h: int, filled: bool)
    | PolygonShape(pen: Pen, points: seq<Point>, filled: bool)
    | BezierShape(pen: Pen, points: seq<Point>)

  /** The opcode that makes a shape of this kind. */
  function Opcode(s: Shape): char {
    match s
    case TextShape(_, _, _, _, _, _) => 'T'
    case EllipseShape(_, _, _, _, _, filled) => if filled then 'E' else 'e'
    case PolygonShape(_, _, filled) => if filled then 'P' else 'p'
    case BezierShape(_, _) => 'B'
  }

  /** `DotWindow.transform`, which the parser delegates to: graph
      coordinates shifted by the offsets and scaled. */
  datatype Transform = Transform(xoffset: int, yoffset: int, xscale: real, yscale: real)

  function Apply(tr: Transform, x: int, y: int): Point {
    ((x + tr.xoffset) as real * tr.xscale, (y + tr.yoffset) as real * tr.yscale)
  }

  /** What makes `parse` stop early: `int()`/`float()` rejecting a token,
      an index outside the buffer, or (only in this model) running out of
      the fuel that stands in for the source's unbounded loop. */
  datatype Failure = ValueError | IndexError | OutOfFuel

  /** A value read and where the cursor is after it. */
  datatype Cursor<T> = At(value: T, pos: int)

  /** A method's result and the cursor it leaves, in the shape the
      specification functions give. */
  function Outcome<T>(r: Result<T, Failure>, pos: int): Result<Cursor<T>, Failure> {
    match r
    case Ok(v) => Ok(At(v, pos))
    case Err(e) => Err(e)
  }

  /** `__init__`'s unescaping: `\"` becomes `"`, then `\n` a newline. */
  function Unescape(raw: string): string {
    Replace(Replace(raw, "\\\"", "\""), "\\n", "\n")
  }

  /** Unescaping never lengthens the text. */
  lemma UnescapeShrinks(raw: string)
    ensures |Unescape(raw)| <= |raw|
  {
    ReplaceShrinks(raw, "\\\"", "\"");
    ReplaceShrinks(Replace(raw, "\\\"", "\""), "\\n", "\n");
  }

  /** Text without a backslash is left as it is. */
  lemma UnescapePlain(raw: string)
    requires forall i :: 0 <= i < |raw| ==> raw[i] != '\\'
    ensures Unescape(raw) == raw
  {
    forall i | 0 <= i <= |raw| - 2 ensures !OccursAt(raw, "\\\"", i) && !OccursAt(raw, "\\n", i) {
      assert raw[i] != '\\';
    }
    ReplaceAbsent(raw, "\\\"", "\"");
    ReplaceAbsent(raw, "\\n", "\n");
  }

  /** The whitespace-skipping loop that ends `read_code` and `read_text`:
      the first position at or after `pos` that is past the end or holds
      a non-space; a negative position indexes from the end, and one
      before the start raises IndexError (None). */
  function SkipSpaces(buf: string, pos: int): (r: Option<int>)
    ensures r.None? <==> pos < -|buf|
    ensures r.Some? ==> pos <= r.value && (pos <= |buf| ==> r.value <= |buf|)
    ensures r.Some? && r.value < |buf| ==> IndexOk(buf, r.value) && !IsSpace(Index(buf, r.value))
    ensures r.Some? ==> forall k :: pos <= k < r.value ==> IndexOk(buf, k) && IsSpace(Index(buf, k))
    decreases |buf| - pos
  {
    if pos >= |buf| then Some(pos)
    else if !IndexOk(buf, pos) then None
    else if IsSpace(Index(buf, pos)) then SkipSpaces(buf, pos + 1)
    else Some(pos)
  }

  /** `read_code`: the text up to the next space, the cursor moved past
      that space and the whitespace after it. When no space follows, the
      text runs to the last character but one and the cursor goes back to
      the start. */
  function CodeAt(buf: string, pos: int): (r: Cursor<string>)
    ensures forall i :: 0 <= i < |r.value| ==> r.value[i] != ' '
    ensures 0 <= r.pos <= |buf| && (r.pos < |buf| ==> !IsSpace(buf[r.pos]))
    ensures Find(buf, ' ', pos) != -1 ==> r.pos > pos
  {
    var k := Find(buf, ' ', pos);
    var skipped := SkipSpaces(buf, k + 1);
    NoSpaceBefore(buf, pos, k);
    At(Slice(buf, pos, k), skipped.value)
  }

  /** The slice `read_code` returns holds no space. */
  lemma NoSpaceBefore(buf: string, pos: int, k: int)
    requires k == Find(buf, ' ', pos)
    ensures forall i :: 0 <= i < |Slice(buf, pos, k)| ==> Slice(buf, pos, k)[i] != ' '
  {
    var a, b := SliceBound(pos, |buf|), SliceBound(k, |buf|);
    if a < b {
      forall i | 0 <= i < b - a ensures buf[a..b][i] != ' ' {
        assert buf[a..b][i] == buf[a + i];
      }
    }
  }

  /** `read_number`: `int()` of the next token. */
  function NumberAt(buf: string, pos: int): (r: Result<Cursor<int>, Failure>)
    ensures r.Ok? <==> ParseInt(CodeAt(buf, pos).value).Some?
    ensures r.Err? ==> r.error == ValueError
  {
    var code := CodeAt(buf, pos);
    match ParseInt(code.value)
    case None => Err(ValueError)
    case Some(n) => Ok(At(n, code.pos))
  }

  /** `read_float`: `float()` of the next token. */
  function FloatAt(buf: string, pos: int): (r: Result<Cursor<real>, Failure>)
    ensures r.Ok? <==> ParseDecimal(CodeAt(buf, pos).value).Some?
  {
    var code := CodeAt(buf, pos);
    match ParseDecimal(code.value)
    case None => Err(ValueError)
    case Some(v) => Ok(At(v, code.pos))
  }

  /** `read_point`: two numbers, transformed. */
  function PointAt(buf: string, tr: Transform, pos: int): (r: Result<Cursor<Point>, Failure>)
    ensures r.Ok? ==> exists x: int, y: int :: r.value.value == Apply(tr, x, y)
  {
    match NumberAt(buf, pos)
    case Err(e) => Err(e)
    case Ok(x) =>
      match NumberAt(buf, x.pos)
      case Err(e) => Err(e)
      case Ok(y) => Ok(At(Apply(tr, x.value, y.value), y.pos))
  }

  /** `read_text`: a count `num`, then the `num` characters that follow the
      next `-`, then whitespace. A negative count moves the cursor back. */
  function TextAt(buf: string, pos: int): (r: Result<Cursor<string>, Failure>)
    ensures r.Err? ==> r.error != OutOfFuel
  {
    match NumberAt(buf, pos)
    case Err(e) => Err(e)
    case Ok(num) =>
      var p := Find(buf, '-', num.pos) + 1;
      var end := p + num.value;
      match SkipSpaces(buf, end)
      case None => Err(IndexError)
      case Some(q) => Ok(At(Slice(buf, p, end), q))
  }

  /** The loop of `read_polygon` after `count` turns. */
  function PointsAt(buf: string, tr: Transform, pos: int, count: nat): (r: Result<Cursor<seq<Point>>, Failure>)
    ensures r.Ok? ==> |r.value.value| == count
    ensures r.Err? ==> r.error != OutOfFuel
  {
    if count == 0 then Ok(At([], pos))
    else
      match PointsAt(buf, tr, pos, count - 1)
      case Err(e) => Err(e)
      case Ok(front) =>
        match PointAt(buf, tr, front.pos)
        case Err(e) => Err(e)
        case Ok(q) => Ok(At(front.value + [q.value], q.pos))
  }

  /** A failed read ends `read_polygon`'s loop: asking for more points
      fails the same way. */
  lemma {:induction false} PointsFailureSticks(buf: string, tr: Transform, pos: int, i: nat, count: nat)
    requires i <= count && PointsAt(buf, tr, pos, i).Err?
    ensures PointsAt(buf, tr, pos, count) == PointsAt(buf, tr, pos, i)
    decreases count
  {
    if i < count {
      PointsFailureSticks(buf, tr, pos, i, count - 1);
      assert PointsAt(buf, tr, pos, count - 1).Err?;
    }
  }

  /** One turn of `read_polygon`'s loop: the points so far and the point
      read give the points after one more turn. */
  lemma PointsStep(buf: string, tr: Transform, start: int, i: nat, pts: seq<Point>, before: int, q: Result<Point, Failure>, after: int)
    requires PointsAt(buf, tr, start, i) == Ok(At(pts, before))
    requires Outcome(q, after) == PointAt(buf, tr, before)
    ensures q.Ok? ==> PointsAt(buf, tr, start, i + 1) == Ok(At(pts + [q.value], after))
    ensures q.Err? ==> PointsAt(buf, tr, start, i + 1) == Err(q.error)
  {
  }

  /** `read_polygon`: a count `n`, then `n` points (none when `n` is
      negative, as `range` gives). */
  function PolygonAt(buf: string, tr: Transform, pos: int): (r: Result<Cursor<seq<Point>>, Failure>)
    ensures r.Ok? ==> (NumberAt(buf, pos).Ok? &&
      |r.value.value| == (if NumberAt(buf, pos).value.value < 0 then 0 else NumberAt(buf, pos).value.value))
    ensures r.Err? ==> r.error != OutOfFuel
  {
    match NumberAt(buf, pos)
    case Err(e) => Err(e)
    case Ok(n) => PointsAt(buf, tr, n.pos, if n.value < 0 then 0 else n.value)
  }

  /** The opcodes that add a shape, and the ones that only read; an
      opcode is a one-character token. */
  predicate DrawingOp(c: char) {
    c == 'T' || c == 'E' || c == 'e' || c == 'B' || c == 'P' || c == 'p'
  }

  predicate StateOp(c: char) {
    c == 'c' || c == 'C' || c == 'S' || c == 'F'
  }

  /** What one opcode does: go on from a cursor with a pen and maybe a new
      shape, or stop. */
  datatype Step = Continue(pos: int, pen: Pen, shape: Option<Shape>) | Stop

  /** `c`, `C` and `S`: a colour or style text, read and ignored. */
  function SkipTextOp(buf: string, pos: int, pen: Pen): (r: Result<Step, Failure>)
    ensures r.Ok? ==> r.value.Continue? && r.value.pen == pen && r.value.shape.None?
    ensures r.Err? ==> r.error != OutOfFuel
  {
    match TextAt(buf, pos)
    case Err(e) => Err(e)
    case Ok(t) => Ok(Continue(t.pos, pen, None))
  }

  /** `F`: a font size and a font name, which the pen takes on. */
  function FontOp(buf: string, pos: int, pen: Pen): (r: Result<Step, Failure>)
    ensures OpFits(r, pen, 'F')
  {
    match FloatAt(buf, pos)
    case Err(e) => Err(e)
    case Ok(size) =>
      match TextAt(buf, size.pos)
      case Err(e) => Err(e)
      case Ok(name) => Ok(Continue(name.pos, pen.(fontsize := size.value, fontname := name.value), None))
  }

  /** `T`: a point, a justification, a width and a text. */
  function TextOp(buf: string, tr: Transform, pos: int, pen: Pen): (r: Result<Step, Failure>)
    ensures OpFits(r, pen, 'T')
  {
    match PointAt(buf, tr, pos)
    case Err(e) => Err(e)
    case Ok(xy) =>
      match NumberAt(buf, xy.pos)
      case Err(e) => Err(e)
      case Ok(j) =>
        match NumberAt(buf, j.pos)
        case Err(e) => Err(e)
        case Ok(w) =>
          match TextAt(buf, w.pos)
          case Err(e) => Err(e)
          case Ok(t) => Ok(Continue(t.pos, pen, Some(TextShape(pen, xy.value.0, xy.value.1, j.value, w.value, t.value))))
  }

  /** `E` (filled) and `e`: a centre, a width and a height. */
  function EllipseOp(buf: string, tr: Transform, pos: int, pen: Pen, filled: bool): (r: Result<Step, Failure>)
    ensures r.Ok? ==> r.value.Continue? && r.value.pen == pen && r.value.shape.Some?
    ensures r.Ok? ==> (r.value.shape.value.EllipseShape? && r.value.shape.value.pen == pen &&
      r.value.shape.value.filled == filled)
    ensures r.Err? ==> r.error != OutOfFuel
  {
    match PointAt(buf, tr, pos)
    case Err(e) => Err(e)
    case Ok(xy) =>
      match NumberAt(buf, xy.pos)
      case Err(e) => Err(e)
      case Ok(w) =>
        match NumberAt(buf, w.pos)
        case Err(e) => Err(e)
        case Ok(h) => Ok(Continue(h.pos, pen, Some(EllipseShape(pen, xy.value.0, xy.value.1, w.value, h.value, filled))))
  }

  /** `B`: the control points of a Bezier curve. */
  function BezierOp(buf: string, tr: Transform, pos: int, pen: Pen): (r: Result<Step, Failure>)
    ensures OpFits(r, pen, 'B')
  {
    match PolygonAt(buf, tr, pos)
    case Err(e) => Err(e)
    case Ok(pts) => Ok(Continue(pts.pos, pen, Some(BezierShape(pen, pts.value))))
  }

  /** `P` (filled) and `p`: the corners of a polygon. */
  function PolygonOp(buf: string, tr: Transform, pos: int, pen: Pen, filled: bool): (r: Result<Step, Failure>)
    ensures OpFits(r, pen, if filled then 'P' else 'p')
  {
    match PolygonAt(buf, tr, pos)
    case Err(e) => Err(e)
    case Ok(pts) => Ok(Continue(pts.pos, pen, Some(PolygonShape(pen, pts.value, filled))))
  }

  /** What a turn of `parse`'s loop may do after reading the one-character
      opcode `c` with the pen `pen`: stop exactly when the opcode is
      unknown, never run out of fuel, add a shape exactly for a drawing
      opcode, drawn with the pen and of the opcode's own kind, and change
      the pen only for `F`, and then only its font. */
  predicate OpFits(r: Result<Step, Failure>, pen: Pen, c: char) {
    ((r.Ok? && r.value.Stop?) <==> !(DrawingOp(c) || StateOp(c))) &&
    (r.Err? ==> r.error != OutOfFuel) &&
    (r.Ok? && r.value.Continue? ==> (r.value.shape.Some? <==> DrawingOp(c))) &&
    (r.Ok? && r.value.Continue? && r.value.shape.Some? ==>
      r.value.shape.value.pen == pen && Opcode(r.value.shape.value) == c) &&
    (r.Ok? && r.value.Continue? && c != 'F' ==> r.value.pen == pen) &&
    (r.Ok? && r.value.Continue? ==>
      r.value.pen == pen.(fontsize := r.value.pen.fontsize, fontname := r.value.pen.fontname))
  }

  /** `c`, `C`, `S` and `F`: no shape, and only `F` changes the pen, and
      only its font. */
  function StateOpAt(buf: string, pos: int, pen: Pen, c: char): (r: Result<Step, Failure>)
    requires StateOp(c)
    ensures OpFits(r, pen, c)
  {
    if c == 'F' then FontOp(buf, pos, pen) else SkipTextOp(buf, pos, pen)
  }

  /** The drawing opcodes: one shape of the opcode's own kind, drawn with
      the pen, which stays as it was. */
  function DrawingOpAt(buf: string, tr: Transform, pos: int, pen: Pen, c: char): (r: Result<Step, Failure>)
    requires DrawingOp(c)
    ensures OpFits(r, pen, c)
  {
    if c == 'T' then TextOp(buf, tr, pos, pen)
    else if c == 'E' || c == 'e' then EllipseOp(buf, tr, pos, pen, c == 'E')
    else if c == 'B' then BezierOp(buf, tr, pos, pen)
    else PolygonOp(buf, tr, pos, pen, c == 'P')
  }

  /** The body of `parse`'s loop after the opcode `op` was read, with the
      cursor at `pos`: a token that is not one character long stops the
      loop. */
  function OpAt(buf: string, tr: Transform, pos: int, pen: Pen, op: string): (r: Result<Step, Failure>)
    ensures |op| != 1 ==> r == Ok(Stop)
    ensures |op| == 1 ==> OpFits(r, pen, op[0])
  {
    if |op| != 1 then Ok(Stop)
    else if StateOp(op[0]) then StateOpAt(buf, pos, pen, op[0])
    else if DrawingOp(op[0]) then DrawingOpAt(buf, tr, pos, pen, op[0])
    else Ok(Stop)
  }

  /** The shapes a step adds. */
  function Added(shape: Option<Shape>): seq<Shape> {
    if shape.Some? then [shape.value] else []
  }

  /** Two pens stroke alike: same colours and line width. */
  predicate SameStroke(a: Pen, b: Pen) {
    a.color == b.color && a.fillcolor == b.fillcolor && a.linewidth == b.linewidth
  }

  /** One turn of `parse`'s loop from cursor `pos`: read the opcode,
      then do what it says. */
  function StepAt(buf: string, tr: Transform, pos: int, pen: Pen): Result<Step, Failure> {
    var code := CodeAt(buf, pos);
    OpAt(buf, tr, code.pos, pen, code.value)
  }

  /** The loop of `parse`, for any turn `step` and a cursor that stops at
      `end`: it runs while the cursor is before `end`, for at most `fuel`
      turns, and only ever appends to the shapes made so far. */
  function Run(step: (int, Pen) -> Result<Step, Failure>, end: int, pos: int, pen: Pen, shapes: seq<Shape>, fuel: nat): (r: Result<seq<Shape>, Failure>)
    ensures r.Ok? ==> shapes <= r.value
    decreases fuel, 0
  {
    if pos >= end then Ok(shapes)
    else if fuel == 0 then Err(OutOfFuel)
    else TakeTurn(step, end, pos, pen, shapes, fuel - 1)
  }

  /** One turn of the loop from cursor `pos`, then the rest of the run
      with `fuel` turns left. */
  function TakeTurn(step: (int, Pen) -> Result<Step, Failure>, end: int, pos: int, pen: Pen, shapes: seq<Shape>, fuel: nat): (r: Result<seq<Shape>, Failure>)
    ensures r.Ok? ==> shapes <= r.value
    decreases fuel, 1
  {
    match step(pos, pen)
    case Err(e) => Err(e)
    case Ok(Stop) => Ok(shapes)
    case Ok(Continue(p, next, shape)) => Run(step, end, p, next, shapes + Added(shape), fuel)
  }

  /** The turn `parse` takes on the text `buf`. */
  function StepFn(buf: string, tr: Transform): (int, Pen) -> Result<Step, Failure> {
    (p: int, q: Pen) => StepAt(buf, tr, p, q)
  }

  /** Before the end of the text and with fuel left, `parse` takes a
      turn. */
  lemma ParseTurn(buf: string, tr: Transform, pos: int, pen: Pen, shapes: seq<Shape>, fuel: nat)
    requires pos < |buf| && fuel > 0
    ensures ParseFrom(buf, tr, pos, pen, shapes, fuel) == TakeTurn(StepFn(buf, tr), |buf|, pos, pen, shapes, fuel - 1)
  {
  }

  /** `parse` on the text `buf` from cursor `pos` with pen `pen`. */
  function ParseFrom(buf: string, tr: Transform, pos: int, pen: Pen, shapes: seq<Shape>, fuel: nat): (r: Result<seq<Shape>, Failure>)
    ensures r.Ok? ==> shapes <= r.value
  {
    Run(StepFn(buf, tr), |buf|, pos, pen, shapes, fuel)
  }

  /** More fuel changes nothing once a run has finished without using it
      all: the fuel only cuts off runs that would not end. */
  lemma {:induction false} RunFuelEnough(step: (int, Pen) -> Result<Step, Failure>, end: int, pos: int, pen: Pen, shapes: seq<Shape>, fuel: nat, more: nat)
    requires Run(step, end, pos, pen, shapes, fuel) != Err(OutOfFuel)
    requires fuel <= more
    ensures Run(step, end, pos, pen, shapes, more) == Run(step, end, pos, pen, shapes, fuel)
    decreases fuel
  {
    if pos < end {
      match step(pos, pen)
      case Err(_) =>
      case Ok(Stop) =>
      case Ok(Continue(p, next, shape)) =>
        RunFuelEnough(step, end, p, next, shapes + Added(shape), fuel - 1, more - 1);
    }
  }

  /** A turn keeps the stroke: the new pen strokes like the old one and a
      new shape is drawn with the old one. */
  predicate KeepsStroke(s: Result<Step, Failure>, pen: Pen) {
    s.Ok? && s.value.Continue? ==>
      SameStroke(s.value.pen, pen) && (s.value.shape.Some? ==> s.value.shape.value.pen == pen)
  }

  /** When every turn keeps the stroke, every shape a run adds strokes
      like the pen it started with. */
  lemma {:induction false} RunKeepsStroke(step: (int, Pen) -> Result<Step, Failure>, end: int, pos: int, pen: Pen, shapes: seq<Shape>, fuel: nat)
    requires forall p, q :: KeepsStroke(step(p, q), q)
    ensures var r := Run(step, end, pos, pen, shapes, fuel);
      r.Ok? ==> forall i :: |shapes| <= i < |r.value| ==> SameStroke(r.value[i].pen, pen)
    decreases fuel
  {
    if pos < end && fuel > 0 {
      match step(pos, pen)
      case Err(_) =>
      case Ok(Stop) =>
      case Ok(Continue(p, next, shape)) =>
        assert KeepsStroke(step(pos, pen), pen);
        var grown := shapes + Added(shape);
        RunKeepsStroke(step, end, p, next, grown, fuel - 1);
        var r := Run(step, end, pos, pen, shapes, fuel);
        assert r == Run(step, end, p, next, grown, fuel - 1);
        if r.Ok? {
          assert grown <= r.value;
          forall i | |shapes| <= i < |r.value|
            ensures SameStroke(r.value[i].pen, pen)
          {
            if i < |grown| {
              assert r.value[i] == shape.value;
            }
          }
        }
    }
  }

  /** Every opcode `parse` knows keeps the stroke: only `F` changes the
      pen, and only its font. */
  lemma StepKeepsStroke(buf: string, tr: Transform, pos: int, pen: Pen)
    ensures KeepsStroke(StepAt(buf, tr, pos, pen), pen)
  {
  }

  /** No shape `parse` makes has a colour or line width other than the
      default pen's. */
  lemma ParseKeepsStroke(buf: string, tr: Transform, pos: int, fuel: nat)
    ensures var r := ParseFrom(buf, tr, pos, DefaultPen, [], fuel);
      r.Ok? ==> forall i :: 0 <= i < |r.value| ==> SameStroke(r.value[i].pen, DefaultPen)
  {
    var step := StepFn(buf, tr);
    forall p, q ensures KeepsStroke(step(p, q), q) {
      StepKeepsStroke(buf, tr, p, q);
    }
    RunKeepsStroke(step, |buf|, pos, DefaultPen, [], fuel);
  }

  /** `read_code` gives back a space-free token written before a space. */
  lemma CodeRoundTrip(w: string, rest: string)
    requires forall i :: 0 <= i < |w| ==> w[i] != ' '
    ensures CodeAt(w + " " + rest, 0).value == w
    ensures CodeAt(w + " " + rest, 0).pos == SkipSpaces(w + " " + rest, |w| + 1).value
  {
    var buf := w + " " + rest;
    assert buf[|w|] == ' ';
    assert forall i :: 0 <= i < |w| ==> buf[i] == w[i];
    var k := Find(buf, ' ', 0);
    assert k == |w|;
    assert buf[..|w|] == w;
  }

  /** `read_number` gives back a number written with `str()` before a
      space. */
  lemma NumberRoundTrip(n: int, rest: string)
    ensures NumberAt(IntToString(n) + " " + rest, 0).Ok?
    ensures NumberAt(IntToString(n) + " " + rest, 0).value.value == n
  {
    var w := IntToString(n);
    assert forall i :: 0 <= i < |w| ==> w[i] != ' ';
    CodeRoundTrip(w, rest);
    IntStringRoundTrip(n);
  }

  /** The count in front of a text written in the xdot form reads back,
      and leaves the cursor on the dash. */
  lemma TextCountRoundTrip(s: string, rest: string)
    ensures NumberAt(IntToString(|s|) + " -" + s + rest, 0) == Ok(At(|s|, |IntToString(|s|)| + 1))
  {
    var w := IntToString(|s|);
    var buf := w + " -" + s + rest;
    assert buf == w + " " + ("-" + s + rest);
    assert forall i :: 0 <= i < |w| ==> w[i] != ' ';
    CodeRoundTrip(w, "-" + s + rest);
    NumberRoundTrip(|s|, "-" + s + rest);
    assert buf[|w| + 1] == '-';
    assert SkipSpaces(buf, |w| + 1) == Some(|w| + 1);
  }

  /** `read_text` gives back a text written in the xdot form: its length,
      a space, a dash, then the text itself. */
  lemma TextRoundTrip(s: string, rest: string)
    ensures TextAt(IntToString(|s|) + " -" + s + rest, 0).Ok?
    ensures TextAt(IntToString(|s|) + " -" + s + rest, 0).value.value == s
  {
    var w := IntToString(|s|);
    var buf := w + " -" + s + rest;
    TextCountRoundTrip(s, rest);
    assert buf[|w| + 1] == '-';
    assert Find(buf, '-', |w| + 1) == |w| + 1;
    assert buf[|w| + 2..|w| + 2 + |s|] == s;
  }

  /** `read_text` returns exactly `num` characters when the buffer holds
      that many after the dash. */
  lemma TextLength(buf: string, pos: int)
    requires NumberAt(buf, pos).Ok? && NumberAt(buf, pos).value.value >= 0
    requires Find(buf, '-', NumberAt(buf, pos).value.pos) + 1 + NumberAt(buf, pos).value.value <= |buf|
    ensures TextAt(buf, pos).Ok?
    ensures |TextAt(buf, pos).value.value| == NumberAt(buf, pos).value.value
  {
  }

  /** The parser: the unescaped attribute text, the transform of the
      graph it belongs to, and the cursor. */
  class XDotAttrParser {
    const buf: string
    const tr: Transform
    var pos: int

    /** `__init__`: the text unescaped, the cursor at the start. */
    constructor (tr: Transform, raw: string)
      ensures buf == Unescape(raw) && this.tr == tr && pos == 0
    {
      var b := Replace(raw, "\\\"", "\"");
      b := Replace(b, "\\n", "\n");
      buf := b;
      this.tr := tr;
      pos := 0;
    }

    /** `__nonzero__`: text is left to read. */
    predicate More()
      reads this
    {
      pos < |buf|
    }

    /** The whitespace-skipping loop of `read_code` and `read_text`: the
        cursor ends where `SkipSpaces` says, and `false` stands for the
        IndexError a position before the start raises. */
    method SkipBlanks() returns (ok: bool)
      modifies this
      ensures SkipSpaces(buf, old(pos)) == if ok then Some(pos) else None
    {
      ghost var start := pos;
      while pos < |buf|
        invariant start <= pos
        invariant SkipSpaces(buf, pos) == SkipSpaces(buf, start)
        decreases |buf| - pos
      {
        if !IndexOk(buf, pos) {
          return false;
        }
        if !IsSpace(Index(buf, pos)) {
          break;
        }
        pos := pos + 1;
      }
      ok := true;
    }

    /** `read_code`. */
    method ReadCode() returns (res: string)
      modifies this
      ensures At(res, pos) == CodeAt(buf, old(pos))
    {
      var k := Find(buf, ' ', pos);
      res := Slice(buf, pos, k);
      pos := k + 1;
      var ok := SkipBlanks();
    }

    /** `read_number`. */
    method ReadNumber() returns (r: Result<int, Failure>)
      modifies this
      ensures Outcome(r, pos) == NumberAt(buf, old(pos))
    {
      var code := ReadCode();
      match ParseInt(code)
      case None => r := Err(ValueError);
      case Some(n) => r := Ok(n);
    }

    /** `read_float`. */
    method ReadFloat() returns (r: Result<real, Failure>)
      modifies this
      ensures Outcome(r, pos) == FloatAt(buf, old(pos))
    {
      var code := ReadCode();
      match ParseDecimal(code)
      case None => r := Err(ValueError);
      case Some(v) => r := Ok(v);
    }

    /** `read_point`. */
    method ReadPoint() returns (r: Result<Point, Failure>)
      modifies this
      ensures Outcome(r, pos) == PointAt(buf, tr, old(pos))
    {
      var x := ReadNumber();
      if x.Err? {
        return Err(x.error);
      }
      var y := ReadNumber();
      if y.Err? {
        return Err(y.error);
      }
      r := Ok(Apply(tr, x.value, y.value));
    }

    /** `read_text`. */
    method ReadText() returns (r: Result<string, Failure>)
      modifies this
      ensures Outcome(r, pos) == TextAt(buf, old(pos))
    {
      var num := ReadNumber();
      if num.Err? {
        return Err(num.error);
      }
      var p := Find(buf, '-', pos) + 1;
      pos := p + num.value;
      var res := Slice(buf, p, pos);
      var ok := SkipBlanks();
      if !ok {
        return Err(IndexError);
      }
      r := Ok(res);
    }

    /** The loop of `read_polygon`: `count` points in turn, stopping at
        the first that fails. */
    method ReadPoints(count: nat) returns (r: Result<seq<Point>, Failure>)
      modifies this
      ensures Outcome(r, pos) == PointsAt(buf, tr, old(pos), count)
    {
      ghost var start := pos;
      var p: seq<Point> := [];
      for i := 0 to count
        invariant PointsAt(buf, tr, start, i) == Ok(At(p, pos))
      {
        ghost var before := pos;
        var q := ReadPoint();
        PointsStep(buf, tr, start, i, p, before, q, pos);
        if q.Err? {
          PointsFailureSticks(buf, tr, start, i + 1, count);
          return Err(q.error);
        }
        p := p + [q.value];
      }
      r := Ok(p);
    }

    /** `read_polygon`. */
    method ReadPolygon() returns (r: Result<seq<Point>, Failure>)
      modifies this
      ensures Outcome(r, pos) == PolygonAt(buf, tr, old(pos))
    {
      var n := ReadNumber();
      if n.Err? {
        return Err(n.error);
      }
      r := ReadPoints(if n.value < 0 then 0 else n.value);
    }

    /** The `c`, `C` and `S` branches of `parse`. */
    method SkipStyle(pen: Pen) returns (s: Result<Step, Failure>)
      modifies this
      ensures s == SkipTextOp(buf, old(pos), pen)
      ensures s.Ok? && s.value.Continue? ==> pos == s.value.pos
    {
      var t := ReadText();
      if t.Err? {
        return Err(t.error);
      }
      s := Ok(Continue(pos, pen, None));
    }

    /** The `F` branch of `parse`. */
    method SetFont(pen: Pen) returns (s: Result<Step, Failure>)
      modifies this
      ensures s == FontOp(buf, old(pos), pen)
      ensures s.Ok? && s.value.Continue? ==> pos == s.value.pos
    {
      var size := ReadFloat();
      if size.Err? {
        return Err(size.error);
      }
      var name := ReadText();
      if name.Err? {
        return Err(name.error);
      }
      s := Ok(Continue(pos, pen.(fontsize := size.value, fontname := name.value), None));
    }

    /** The `T` branch of `parse`. */
    method AddText(pen: Pen) returns (s: Result<Step, Failure>)
      modifies this
      ensures s == TextOp(buf, tr, old(pos), pen)
      ensures s.Ok? && s.value.Continue? ==> pos == s.value.pos
    {
      var xy := ReadPoint();
      if xy.Err? {
        return Err(xy.error);
      }
      var j := ReadNumber();
      if j.Err? {
        return Err(j.error);
      }
      var w := ReadNumber();
      if w.Err? {
        return Err(w.error);
      }
      var t := ReadText();
      if t.Err? {
        return Err(t.error);
      }
      s := Ok(Continue(pos, pen, Some(TextShape(pen, xy.value.0, xy.value.1, j.value, w.value, t.value))));
    }

    /** The `E` and `e` branches of `parse`. */
    method AddEllipse(pen: Pen, filled: bool) returns (s: Result<Step, Failure>)
      modifies this
      ensures s == EllipseOp(buf, tr, old(pos), pen, filled)
      ensures s.Ok? && s.value.Continue? ==> pos == s.value.pos
    {
      var xy := ReadPoint();
      if xy.Err? {
        return Err(xy.error);
      }
      var w := ReadNumber();
      if w.Err? {
        return Err(w.error);
      }
      var h := ReadNumber();
      if h.Err? {
        return Err(h.error);
      }
      s := Ok(Continue(pos, pen, Some(EllipseShape(pen, xy.value.0, xy.value.1, w.value, h.value, filled))));
    }

    /** The `B` branch of `parse`. */
    method AddBezier(pen: Pen) returns (s: Result<Step, Failure>)
      modifies this
      ensures s == BezierOp(buf, tr, old(pos), pen)
      ensures s.Ok? && s.value.Continue? ==> pos == s.value.pos
    {
      var pts := ReadPolygon();
      if pts.Err? {
        return Err(pts.error);
      }
      s := Ok(Continue(pos, pen, Some(BezierShape(pen, pts.value))));
    }

    /** The `P` and `p` branches of `parse`. */
    method AddPolygon(pen: Pen, filled: bool) returns (s: Result<Step, Failure>)
      modifies this
      ensures s == PolygonOp(buf, tr, old(pos), pen, filled)
      ensures s.Ok? && s.value.Continue? ==> pos == s.value.pos
    {
      var pts := ReadPolygon();
      if pts.Err? {
        return Err(pts.error);
      }
      s := Ok(Continue(pos, pen, Some(PolygonShape(pen, pts.value, filled))));
    }

    /** The chain of `if`s in `parse` after the opcode `op` was read. */
    method Op(op: string, pen: Pen) returns (s: Result<Step, Failure>)
      modifies this
      ensures s == OpAt(buf, tr, old(pos), pen, op)
      ensures s.Ok? && s.value.Continue? ==> pos == s.value.pos
    {
      if |op| != 1 {
        return Ok(Stop);
      }
      var c := op[0];
      if c == 'c' || c == 'C' || c == 'S' {
        s := SkipStyle(pen);
      } else if c == 'F' {
        s := SetFont(pen);
      } else if c == 'T' {
        s := AddText(pen);
      } else if c == 'E' || c == 'e' {
        s := AddEllipse(pen, c == 'E');
      } else if c == 'B' {
        s := AddBezier(pen);
      } else if c == 'P' || c == 'p' {
        s := AddPolygon(pen, c == 'P');
      } else {
        s := Ok(Stop);
      }
    }

    /** One turn of `parse`'s loop: read the opcode, then act on it. */
    method Turn(pen: Pen) returns (s: Result<Step, Failure>)
      modifies this
      ensures s == StepAt(buf, tr, old(pos), pen)
      ensures s.Ok? && s.value.Continue? ==> pos == s.value.pos
    {
      var op := ReadCode();
      s := Op(op, pen);
    }

    /** One turn of `parse`'s loop with the pen and shapes so far: either
        the loop's result, or the pen and shapes the loop goes on with. */
    method Advance(pen: Pen, shapes: seq<Shape>, steps: nat) returns (done: Option<Result<seq<Shape>, Failure>>, next: Pen, grown: seq<Shape>)
      requires More() && steps > 0
      modifies this
      ensures done.Some? ==> done.value == ParseFrom(buf, tr, old(pos), pen, shapes, steps)
      ensures done.None? ==> ParseFrom(buf, tr, pos, next, grown, steps - 1) == ParseFrom(buf, tr, old(pos), pen, shapes, steps)
    {
      ParseTurn(buf, tr, pos, pen, shapes, steps);
      next, grown := pen, shapes;
      var s := Turn(pen);
      match s
      case Err(e) =>
        done := Some(Err(e));
      case Ok(Stop) =>
        done := Some(Ok(shapes));
      case Ok(Continue(_, p, shape)) =>
        done := None;
        next, grown := p, shapes + Added(shape);
    }

    /** `parse`, for at most `fuel` turns of its loop. */
    method Parse(fuel: nat) returns (r: Result<seq<Shape>, Failure>)
      modifies this
      ensures r == ParseFrom(buf, tr, old(pos), DefaultPen, [], fuel)
    {
      var shapes: seq<Shape> := [];
      var pen := DefaultPen;
      var steps := fuel;
      while More()
        invariant ParseFrom(buf, tr, pos, pen, shapes, steps) == ParseFrom(buf, tr, old(pos), DefaultPen, [], fuel)
        decreases steps
      {
        if steps == 0 {
          return Err(OutOfFuel);
        }
        var done;
        done, pen, shapes := Advance(pen, shapes, steps);
        if done.Some? {
          return done.value;
        }
        steps := steps - 1;
      }
      r := Ok(shapes);
    }
  }
}
