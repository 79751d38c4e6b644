/**
  Areas of effect: a boolean matrix with a centre, turned, mirrored and flipped into
  larger matrices so that one description serves every direction.
*/
module Areas {
  import opened Arithmetic

  type u32 = x: int | 0 <= x < 0x1_0000_0000

  /** A matrix as a value. */
  datatype Area = Area(rows: nat, cols: nat, cells: seq<seq<bool>>, centerY: u32, centerX: u32) {
    ghost predicate Valid() {
      |cells| == rows && forall y :: 0 <= y < rows ==> |cells[y]| == cols
    }

    predicate Inside(y: int, x: int) { 0 <= y < rows && 0 <= x < cols }

    ghost predicate Blank()
      requires Valid()
    {
      forall y, x :: Inside(y, x) ==> !cells[y][x]
    }
  }

  /** A matrix with cells has its centre on one of them. */
  predicate CenterInside(a: Area) { a.rows > 0 && a.cols > 0 ==> a.centerY < a.rows && a.centerX < a.cols }

  /** A cell relative to the centre: how far down and how far right. */
  datatype Offset = Offset(dy: int, dx: int)

  ghost predicate Lit(a: Area, p: Offset)
    requires a.Valid()
  {
    a.Inside(a.centerY + p.dy, a.centerX + p.dx) && a.cells[a.centerY + p.dy][a.centerX + p.dx]
  }

  /** The cells an area covers, seen from its centre. */
  ghost function Offsets(a: Area): (s: set<Offset>)
    requires a.Valid()
    ensures forall p :: p in s <==> Lit(a, p)
  {
    var s := set y, x | 0 <= y < a.rows && 0 <= x < a.cols && a.cells[y][x] :: Offset(y - a.centerY, x - a.centerX);
    assert forall p :: p in s ==> Lit(a, p);
    forall p | Lit(a, p)
      ensures p in s
    {
      var y, x := a.centerY + p.dy, a.centerX + p.dx;
      assert p == Offset(y - a.centerY, x - a.centerX);
    }
    s
  }

  // ---------------------------------------------------------------------------
  // Turns and reflections of the plane
  // ---------------------------------------------------------------------------

  datatype Operation = Copy | Mirror | Flip | Rotate90 | Rotate180 | Rotate270

  /** A quarter turn takes north (up) to east (right). */
  function QuarterTurn(p: Offset): Offset { Offset(p.dx, -p.dy) }

  function Turn(k: nat, p: Offset): Offset { if k == 0 then p else QuarterTurn(Turn(k - 1, p)) }

  function Mirrored(p: Offset): Offset { Offset(p.dy, -p.dx) }

  function Flipped(p: Offset): Offset { Offset(-p.dy, p.dx) }

  function PointReflected(p: Offset): Offset { Offset(-p.dy, -p.dx) }

  ghost function Image(s: set<Offset>, f: Offset -> Offset): set<Offset> { set p | p in s :: f(p) }

  /** A set of cells after `k` quarter turns about the centre, mirrored, flipped, reflected. */
  ghost function Turned(k: nat, s: set<Offset>): set<Offset> { Image(s, p => Turn(k, p)) }

  ghost function MirroredSet(s: set<Offset>): set<Offset> { Image(s, p => Mirrored(p)) }

  ghost function FlippedSet(s: set<Offset>): set<Offset> { Image(s, p => Flipped(p)) }

  ghost function ReflectedSet(s: set<Offset>): set<Offset> { Image(s, p => PointReflected(p)) }

  function Cosine(op: Operation): int { if op == Rotate180 then -1 else if op.Rotate90? || op.Rotate270? then 0 else 1 }

  function Sine(op: Operation): int { if op == Rotate90 then 1 else if op == Rotate270 then -1 else 0 }

  predicate IsRotation(op: Operation) { op.Rotate90? || op.Rotate180? || op.Rotate270? }

  /** The rotation as the source computes it from a cosine and a sine. */
  function Rotated(op: Operation, p: Offset): Offset {
    Offset(p.dx * Sine(op) + p.dy * Cosine(op), p.dx * Cosine(op) - p.dy * Sine(op))
  }

  function QuarterTurns(op: Operation): nat {
    if op == Rotate90 then 1 else if op == Rotate180 then 2 else if op == Rotate270 then 3 else 0
  }

  lemma RotatedIsTurn(op: Operation, p: Offset)
    requires IsRotation(op)
    ensures Rotated(op, p) == Turn(QuarterTurns(op), p)
  {
    assert Turn(1, p) == QuarterTurn(p);
    assert Turn(2, p) == QuarterTurn(Turn(1, p));
    assert Turn(3, p) == QuarterTurn(Turn(2, p));
  }

  /** The cell that a rotation brings to `p`. */
  function Unrotated(op: Operation, p: Offset): Offset {
    Offset(p.dy * Cosine(op) - p.dx * Sine(op), p.dy * Sine(op) + p.dx * Cosine(op))
  }

  lemma UnrotatedInverts(op: Operation, p: Offset)
    ensures Rotated(op, Unrotated(op, p)) == p && Unrotated(op, Rotated(op, p)) == p
  {
  }

  // ---------------------------------------------------------------------------
  // Matrices
  // ---------------------------------------------------------------------------

  function Max(a: nat, b: nat): nat { if a < b then b else a }

  class MatrixArea {
    const rows: nat
    const cols: nat
    const data: array2<bool>
    var centerY: u32
    var centerX: u32

    ghost predicate Valid() { data.Length0 == rows && data.Length1 == cols }

    ghost function View(): (a: Area)
      reads this, data
      requires Valid()
      ensures a.Valid()
    {
      Area(rows, cols,
           seq(rows, y requires 0 <= y < rows && Valid() reads data =>
             seq(cols, x requires 0 <= x < cols && Valid() reads data => data[y, x])),
           centerY, centerX)
    }

    constructor (rows: nat, cols: nat)
      ensures Valid() && this.rows == rows && this.cols == cols && fresh(data)
      ensures View().Blank() && centerY == centerX == 0
    {
      this.rows, this.cols := rows, cols;
      data := new bool[rows, cols]((_, _) => false);
      centerY, centerX := 0, 0;
    }

    method SetValue(row: nat, col: nat, value: bool)
      requires Valid() && row < rows && col < cols
      modifies data
      ensures forall y, x :: 0 <= y < rows && 0 <= x < cols ==>
        data[y, x] == if y == row && x == col then value else old(data[y, x])
    {
      data[row, col] := value;
    }

    method SetCenter(y: u32, x: u32)
      modifies this`centerY, this`centerX
      ensures centerY == y && centerX == x
    {
      centerY, centerX := y, x;
    }
  }

  lemma ViewIs(m: MatrixArea)
    requires m.Valid()
    ensures var a := m.View();
            && a.rows == m.rows && a.cols == m.cols && a.centerY == m.centerY && a.centerX == m.centerX
            && forall y, x :: 0 <= y < m.rows && 0 <= x < m.cols ==> a.cells[y][x] == m.data[y, x]
  {
  }

  /** `out` is what a rotation of `input` about its centre leaves in a matrix that was blank. */
  ghost predicate IsRotationOf(out: Area, op: Operation, input: Area)
    requires out.Valid() && input.Valid()
  {
    && out.centerY == Unsigned(out.rows / 2 - 1) && out.centerX == Unsigned(out.cols / 2 - 1)
    && forall oy, ox :: out.Inside(oy, ox) ==>
         var p := Unrotated(op, Offset(oy - out.centerY, ox - out.centerX));
         out.cells[oy][ox] == Lit(input, p)
  }

  /** Every cell of the input is written inside the square, and no two are written to one place. */
  lemma RotationFits(rows: nat, cols: nat, cy: nat, cx: nat, op: Operation, y: nat, x: nat)
    requires cy < rows && cx < cols && y < rows && x < cols && IsRotation(op)
    ensures var m := Max(rows, cols);
            var t := Rotated(op, Offset(y - cy, x - cx));
            0 <= t.dy + m - 1 < 2 * m && 0 <= t.dx + m - 1 < 2 * m
  {
  }

  /** The cell at `p`, counted only if the column-by-column copy has passed it. */
  ghost predicate Written(input: Area, op: Operation, p: Offset, x: nat, y: nat)
    requires input.Valid()
  {
    var q := Unrotated(op, p);
    Lit(input, q) && (input.centerX + q.dx < x || (input.centerX + q.dx == x && input.centerY + q.dy < y))
  }

  lemma WrittenStep(input: Area, op: Operation, p: Offset, x: nat, y: nat)
    requires input.Valid() && IsRotation(op) && x < input.cols && y < input.rows
    ensures var target := Rotated(op, Offset(y - input.centerY, x - input.centerX));
            Written(input, op, p, x, y + 1) == if p == target then input.cells[y][x] else Written(input, op, p, x, y)
  {
    UnrotatedInverts(op, p);
    UnrotatedInverts(op, Offset(y - input.centerY, x - input.centerX));
  }

  lemma WrittenColumn(input: Area, op: Operation, p: Offset, x: nat)
    requires input.Valid()
    ensures Written(input, op, p, x, input.rows) == Written(input, op, p, x + 1, 0)
  {
  }

  lemma NothingWritten(input: Area, op: Operation, p: Offset)
    requires input.Valid()
    ensures !Written(input, op, p, 0, 0)
  {
  }

  lemma AllWritten(input: Area, op: Operation, p: Offset)
    requires input.Valid()
    ensures Written(input, op, p, input.cols, 0) == Lit(input, Unrotated(op, p))
  {
  }

  lemma RotatedParts(op: Operation, p: Offset)
    ensures Rotated(op, p).dx == p.dx * Cosine(op) + p.dy * -Sine(op)
    ensures Rotated(op, p).dy == p.dx * Sine(op) + p.dy * Cosine(op)
  {
  }

  /** The output holds exactly the cells that the copy has passed. */
  ghost predicate Passed(output: MatrixArea, input: Area, op: Operation, cy: int, cx: int, x: nat, y: nat)
    reads output.data
    requires output.Valid() && input.Valid()
  {
    forall oy, ox :: 0 <= oy < output.rows && 0 <= ox < output.cols ==>
      output.data[oy, ox] == Written(input, op, Offset(oy - cy, ox - cx), x, y)
  }

  lemma PassedColumn(output: MatrixArea, input: Area, op: Operation, cy: int, cx: int, x: nat)
    requires output.Valid() && input.Valid() && Passed(output, input, op, cy, cx, x, input.rows)
    ensures Passed(output, input, op, cy, cx, x + 1, 0)
  {
    hide Written;
    forall oy, ox | 0 <= oy < output.rows && 0 <= ox < output.cols
      ensures output.data[oy, ox] == Written(input, op, Offset(oy - cy, ox - cx), x + 1, 0)
    {
      WrittenColumn(input, op, Offset(oy - cy, ox - cx), x);
    }
  }

  lemma PassedNothing(output: MatrixArea, input: Area, op: Operation, cy: int, cx: int)
    requires output.Valid() && input.Valid() && output.View().Blank()
    ensures Passed(output, input, op, cy, cx, 0, 0)
  {
    hide Written;
    ViewIs(output);
    forall oy, ox | 0 <= oy < output.rows && 0 <= ox < output.cols
      ensures output.data[oy, ox] == Written(input, op, Offset(oy - cy, ox - cx), 0, 0)
    {
      NothingWritten(input, op, Offset(oy - cy, ox - cx));
      assert output.View().Inside(oy, ox);
    }
  }

  lemma PassedEverything(output: MatrixArea, input: Area, op: Operation)
    requires output.Valid() && input.Valid()
    requires output.rows < 0x1_0000_0000 && output.rows % 2 == 0 && output.cols == output.rows
    requires output.centerY == Unsigned(output.rows / 2 - 1) && output.centerX == Unsigned(output.cols / 2 - 1)
    requires Passed(output, input, op, output.rows / 2 - 1, output.cols / 2 - 1, input.cols, 0)
    ensures IsRotationOf(output.View(), op, input)
  {
    hide Written, Unsigned, Lit, Unrotated, MatrixArea.View;
    ViewIs(output);
    if output.rows > 0 {
      CenterOfSquare(output.rows);
    }
    forall oy, ox | 0 <= oy < output.rows && 0 <= ox < output.cols
      ensures output.data[oy, ox] == Lit(input, Unrotated(op, Offset(oy - output.centerY, ox - output.centerX)))
    {
      AllWritten(input, op, Offset(oy - output.centerY, ox - output.centerX));
    }
  }

  lemma CenterOfSquare(size: nat)
    requires 0 < size < 0x1_0000_0000 && size % 2 == 0
    ensures Unsigned(size / 2 - 1) == size / 2 - 1
  {
  }

  /** Writes the input cell (y, x) where the rotation takes it. */
  method WriteRotated(input: MatrixArea, output: MatrixArea, op: Operation, y: nat, x: nat, cy: nat, cx: nat)
    requires input.Valid() && output.Valid() && input.data != output.data && input != output
    requires input.centerY < input.rows && input.centerX < input.cols && IsRotation(op)
    requires output.rows == output.cols == 2 * Max(input.rows, input.cols) < 0x1_0000_0000
    requires cy == cx == Max(input.rows, input.cols) - 1
    requires y < input.rows && x < input.cols && Passed(output, input.View(), op, cy, cx, x, y)
    modifies output.data
    ensures Passed(output, input.View(), op, cy, cx, x, y + 1)
  {
    hide Written, Rotated, Unrotated, Lit, MatrixArea.View;
    var a, b, c, d := Cosine(op), -Sine(op), Sine(op), Cosine(op);
    var newX := x - input.centerX;
    var newY := y - input.centerY;
    var rotatedX := newX * a + newY * b;
    var rotatedY := newX * c + newY * d;
    ViewIs(input);
    RotationFits(input.rows, input.cols, input.centerY, input.centerX, op, y, x);
    RotatedParts(op, Offset(newY, newX));
    output.SetValue(rotatedY + cy, rotatedX + cx, input.data[y, x]);
    forall oy, ox | 0 <= oy < output.rows && 0 <= ox < output.cols
      ensures output.data[oy, ox] == Written(input.View(), op, Offset(oy - cy, ox - cx), x, y + 1)
    {
      WrittenStep(input.View(), op, Offset(oy - cy, ox - cx), x, y);
    }
  }

  /** Turns `input` about its centre into the middle of a blank square twice its size. */
  method Rotate(input: MatrixArea, output: MatrixArea, op: Operation)
    requires input.Valid() && output.Valid() && input.data != output.data && input != output
    requires CenterInside(input.View()) && IsRotation(op)
    requires output.rows == output.cols == 2 * Max(input.rows, input.cols) < 0x1_0000_0000
    requires output.View().Blank()
    modifies output, output.data
    ensures IsRotationOf(output.View(), op, input.View())
  {
    hide Passed, MatrixArea.View;
    ghost var inp := input.View();
    var rotateCenterX := output.cols / 2 - 1;
    var rotateCenterY := output.rows / 2 - 1;
    ViewIs(input);
    PassedNothing(output, input.View(), op, rotateCenterY, rotateCenterX);
    for x := 0 to input.cols
      invariant input.View() == inp && Passed(output, inp, op, rotateCenterY, rotateCenterX, x, 0)
    {
      for y := 0 to input.rows
        invariant input.View() == inp && Passed(output, inp, op, rotateCenterY, rotateCenterX, x, y)
      {
        WriteRotated(input, output, op, y, x, rotateCenterY, rotateCenterX);
      }
      PassedColumn(output, input.View(), op, rotateCenterY, rotateCenterX, x);
    }
    output.SetCenter(Unsigned(rotateCenterY), Unsigned(rotateCenterX));
    PassedEverything(output, input.View(), op);
  }

  /** `out` is what mirroring `input` leaves in a matrix that was blank. */
  ghost predicate IsMirrorOf(out: Area, input: Area)
    requires out.Valid() && input.Valid()
  {
    && out.centerY == input.centerY && out.centerX == Unsigned((input.rows - 1) - input.centerX)
    && forall oy, ox :: out.Inside(oy, ox) ==>
         out.cells[oy][ox] == (input.Inside(oy, input.cols - 1 - ox) && input.cells[oy][input.cols - 1 - ox])
  }

  ghost predicate IsFlipOf(out: Area, input: Area)
    requires out.Valid() && input.Valid()
  {
    && out.centerY == Unsigned((input.cols - 1) - input.centerY) && out.centerX == input.centerX
    && forall oy, ox :: out.Inside(oy, ox) ==>
         out.cells[oy][ox] == (input.Inside(input.rows - 1 - oy, ox) && input.cells[input.rows - 1 - oy][ox])
  }

  lemma BlankIs(m: MatrixArea)
    requires m.Valid() && m.View().Blank()
    ensures forall y, x :: 0 <= y < m.rows && 0 <= x < m.cols ==> !m.data[y, x]
  {
    ViewIs(m);
    assert forall y, x :: 0 <= y < m.rows && 0 <= x < m.cols ==> m.View().Inside(y, x);
  }

  lemma MirrorDone(output: MatrixArea, input: MatrixArea)
    requires input.Valid() && output.Valid() && output.centerY == input.centerY
    requires output.centerX == Unsigned((input.rows - 1) - input.centerX)
    requires forall oy, ox :: 0 <= oy < output.rows && 0 <= ox < output.cols ==>
      output.data[oy, ox] == (oy < input.rows && ox < input.cols && input.data[oy, input.cols - 1 - ox])
    ensures IsMirrorOf(output.View(), input.View())
  {
    ViewIs(output);
    ViewIs(input);
  }

  lemma FlipDone(output: MatrixArea, input: MatrixArea)
    requires input.Valid() && output.Valid() && output.centerX == input.centerX
    requires output.centerY == Unsigned((input.cols - 1) - input.centerY)
    requires forall oy, ox :: 0 <= oy < output.rows && 0 <= ox < output.cols ==>
      output.data[oy, ox] == (ox < input.cols && oy < input.rows && input.data[input.rows - 1 - oy, ox])
    ensures IsFlipOf(output.View(), input.View())
  {
    ViewIs(output);
    ViewIs(input);
  }

  method MirrorInto(input: MatrixArea, output: MatrixArea)
    requires input.Valid() && output.Valid() && input.data != output.data && input != output
    requires output.rows >= input.rows && output.cols >= input.cols && output.View().Blank()
    modifies output, output.data
    ensures IsMirrorOf(output.View(), input.View())
  {
    hide MatrixArea.View, IsMirrorOf, Unsigned;
    BlankIs(output);
    for y := 0 to input.rows
      invariant forall oy, ox :: 0 <= oy < output.rows && 0 <= ox < output.cols ==>
        output.data[oy, ox] == (oy < y && ox < input.cols && input.data[oy, input.cols - 1 - ox])
    {
      var rx := 0;
      var x := input.cols;
      while x > 0
        invariant 0 <= x <= input.cols && rx == input.cols - x
        invariant forall oy, ox :: 0 <= oy < output.rows && 0 <= ox < output.cols ==>
          output.data[oy, ox] == ((oy < y || (oy == y && ox < rx)) && ox < input.cols && input.data[oy, input.cols - 1 - ox])
      {
        x := x - 1;
        output.SetValue(y, rx, input.data[y, x]);
        rx := rx + 1;
      }
    }
    output.SetCenter(input.centerY, Unsigned((input.rows - 1) - input.centerX));
    MirrorDone(output, input);
  }

  method FlipInto(input: MatrixArea, output: MatrixArea)
    requires input.Valid() && output.Valid() && input.data != output.data && input != output
    requires output.rows >= input.rows && output.cols >= input.cols && output.View().Blank()
    modifies output, output.data
    ensures IsFlipOf(output.View(), input.View())
  {
    hide MatrixArea.View, IsFlipOf, Unsigned;
    BlankIs(output);
    for x := 0 to input.cols
      invariant forall oy, ox :: 0 <= oy < output.rows && 0 <= ox < output.cols ==>
        output.data[oy, ox] == (ox < x && oy < input.rows && input.data[input.rows - 1 - oy, ox])
    {
      var ry := 0;
      var y := input.rows;
      while y > 0
        invariant 0 <= y <= input.rows && ry == input.rows - y
        invariant forall oy, ox :: 0 <= oy < output.rows && 0 <= ox < output.cols ==>
          output.data[oy, ox] == ((ox < x || (ox == x && oy < ry)) && oy < input.rows && input.data[input.rows - 1 - oy, ox])
      {
        y := y - 1;
        output.SetValue(ry, x, input.data[y, x]);
        ry := ry + 1;
      }
    }
    output.SetCenter(Unsigned((input.cols - 1) - input.centerY), input.centerX);
    FlipDone(output, input);
  }

  /** `out` is a plain copy of `input` in a matrix that was blank. */
  ghost predicate IsCopyOf(out: Area, input: Area)
    requires out.Valid() && input.Valid()
  {
    && out.centerY == input.centerY && out.centerX == input.centerX
    && forall oy, ox :: out.Inside(oy, ox) ==> out.cells[oy][ox] == (input.Inside(oy, ox) && input.cells[oy][ox])
  }

  lemma CopyDone(output: MatrixArea, input: MatrixArea)
    requires input.Valid() && output.Valid() && output.centerX == input.centerX && output.centerY == input.centerY
    requires forall oy, ox :: 0 <= oy < output.rows && 0 <= ox < output.cols ==>
      output.data[oy, ox] == (oy < input.rows && ox < input.cols && input.data[oy, ox])
    ensures IsCopyOf(output.View(), input.View())
  {
    ViewIs(output);
    ViewIs(input);
  }

  method CopyInto(input: MatrixArea, output: MatrixArea)
    requires input.Valid() && output.Valid() && input.data != output.data && input != output
    requires output.rows >= input.rows && output.cols >= input.cols && output.View().Blank()
    modifies output, output.data
    ensures IsCopyOf(output.View(), input.View())
  {
    hide MatrixArea.View, IsCopyOf;
    BlankIs(output);
    for y := 0 to input.rows
      invariant forall oy, ox :: 0 <= oy < output.rows && 0 <= ox < output.cols ==>
        output.data[oy, ox] == (oy < y && ox < input.cols && input.data[oy, ox])
    {
      for x := 0 to input.cols
        invariant forall oy, ox :: 0 <= oy < output.rows && 0 <= ox < output.cols ==>
          output.data[oy, ox] == ((oy < y || (oy == y && ox < x)) && ox < input.cols && input.data[oy, ox])
      {
        output.SetValue(y, x, input.data[y, x]);
      }
    }
    output.SetCenter(input.centerY, input.centerX);
    CopyDone(output, input);
  }

  /** What an operation on `input` leaves in a matrix that was blank. */
  ghost predicate IsResultOf(out: Area, op: Operation, input: Area)
    requires out.Valid() && input.Valid()
  {
    match op
    case Copy => IsCopyOf(out, input)
    case Mirror => IsMirrorOf(out, input)
    case Flip => IsFlipOf(out, input)
    case _ => IsRotationOf(out, op, input)
  }

  /** A rotation needs a square of twice the larger side, everything else a matrix that is no smaller. */
  method CopyArea(input: MatrixArea, output: MatrixArea, op: Operation)
    requires input.Valid() && output.Valid() && input.data != output.data && input != output && output.View().Blank()
    requires output.rows >= input.rows && output.cols >= input.cols
    requires IsRotation(op) ==> CenterInside(input.View()) && output.rows == output.cols == 2 * Max(input.rows, input.cols) < 0x1_0000_0000
    modifies output, output.data
    ensures IsResultOf(output.View(), op, input.View())
  {
    hide MatrixArea.View, IsCopyOf, IsMirrorOf, IsFlipOf, IsRotationOf;
    if op == Copy {
      CopyInto(input, output);
    } else if op == Mirror {
      MirrorInto(input, output);
    } else if op == Flip {
      FlipInto(input, output);
    } else {
      Rotate(input, output, op);
    }
  }

  // ---------------------------------------------------------------------------
  // What the copies mean
  // ---------------------------------------------------------------------------

  /** A plain copy covers the same cells, seen from the centre. */
  lemma CopyIsExact(out: Area, input: Area)
    requires out.Valid() && input.Valid() && IsCopyOf(out, input) && out.rows >= input.rows && out.cols >= input.cols
    ensures Offsets(out) == Offsets(input)
  {
    forall p
      ensures p in Offsets(out) <==> p in Offsets(input)
    {
      assert Lit(out, p) <==> Lit(input, p);
    }
  }

  lemma {:induction false} ImageSize(s: set<Offset>, f: Offset -> Offset)
    requires forall p, q :: p in s && q in s && f(p) == f(q) ==> p == q
    ensures |Image(s, f)| == |s|
  {
    if s != {} {
      var p :| p in s;
      var rest := s - {p};
      ImageSize(rest, f);
      assert Image(s, f) == Image(rest, f) + {f(p)};
      assert f(p) !in Image(rest, f);
    }
  }

  /** A cell of the turned area is the cell it came from; nothing falls outside the square. */
  lemma RotationLit(out: Area, op: Operation, input: Area, p: Offset)
    requires out.Valid() && input.Valid() && IsRotationOf(out, op, input) && IsRotation(op) && CenterInside(input)
    requires out.rows == out.cols == 2 * Max(input.rows, input.cols) < 0x1_0000_0000
    ensures Lit(out, p) <==> Lit(input, Unrotated(op, p))
  {
    hide Rotated, Unrotated;
    var q := Unrotated(op, p);
    UnrotatedInverts(op, p);
    if Lit(input, q) {
      RotationFits(input.rows, input.cols, input.centerY, input.centerX, op, input.centerY + q.dy, input.centerX + q.dx);
      assert out.Inside(out.centerY + p.dy, out.centerX + p.dx);
    }
  }

  /** A rotated copy is the exact rotation of the cell set about the centre, cell for cell. */
  lemma RotationIsExact(out: Area, op: Operation, input: Area)
    requires out.Valid() && input.Valid() && IsRotationOf(out, op, input) && IsRotation(op) && CenterInside(input)
    requires out.rows == out.cols == 2 * Max(input.rows, input.cols) < 0x1_0000_0000
    ensures Offsets(out) == Turned(QuarterTurns(op), Offsets(input))
    ensures |Offsets(out)| == |Offsets(input)|
  {
    hide IsRotationOf, Lit, Rotated, Unrotated, Turn;
    var f := p => Turn(QuarterTurns(op), p);
    forall p
      ensures p in Offsets(out) <==> p in Image(Offsets(input), f)
    {
      var q := Unrotated(op, p);
      RotationLit(out, op, input, p);
      UnrotatedInverts(op, p);
      RotatedIsTurn(op, q);
      assert f(q) == p;
      if p in Image(Offsets(input), f) {
        var r :| r in Offsets(input) && f(r) == p;
        RotatedIsTurn(op, r);
        UnrotatedInverts(op, r);
      }
    }
    forall p, q | f(p) == f(q)
      ensures p == q
    {
      RotatedIsTurn(op, p);
      RotatedIsTurn(op, q);
      UnrotatedInverts(op, p);
      UnrotatedInverts(op, q);
    }
    ImageSize(Offsets(input), f);
  }

  /** Mirroring reflects the cell set, displaced by how far the computed centre column is off. */
  lemma MirrorLit(out: Area, input: Area, p: Offset)
    requires out.Valid() && input.Valid() && IsMirrorOf(out, input)
    requires out.rows >= input.rows && out.cols >= input.cols
    ensures Lit(out, p) <==> Lit(input, Offset(p.dy, input.cols - 1 - out.centerX - input.centerX - p.dx))
  {
  }

  lemma FlipLit(out: Area, input: Area, p: Offset)
    requires out.Valid() && input.Valid() && IsFlipOf(out, input)
    requires out.rows >= input.rows && out.cols >= input.cols
    ensures Lit(out, p) <==> Lit(input, Offset(input.rows - 1 - out.centerY - input.centerY - p.dy, p.dx))
  {
  }

  lemma Farthest(s: set<Offset>, way: Offset) returns (p: Offset)
    requires s != {}
    ensures p in s && forall q :: q in s ==> Along(q, way) <= Along(p, way)
  {
    p :| p in s;
    var rest := s - {p};
    if rest != {} {
      var q := Farthest(rest, way);
      if Along(q, way) > Along(p, way) {
        p := q;
      }
    }
  }

  /** How far p lies in a direction. */
  function Along(p: Offset, way: Offset): int { p.dy * way.dy + p.dx * way.dx }

  /** A finite set of cells is closed under no displacement unless it is empty. */
  lemma NoDisplacement(s: set<Offset>, shift: Offset)
    requires s != {} && forall q :: q in s ==> Offset(q.dy + shift.dy, q.dx + shift.dx) in s
    ensures shift == Offset(0, 0)
  {
    hide Along;
    var p := Farthest(s, shift);
    FartherAlong(p, shift);
  }

  lemma FartherAlong(p: Offset, way: Offset)
    ensures way == Offset(0, 0) || Along(Offset(p.dy + way.dy, p.dx + way.dx), way) > Along(p, way)
  {
    SquarePositive(way.dy);
    SquarePositive(way.dx);
    assert (p.dy + way.dy) * way.dy == p.dy * way.dy + way.dy * way.dy;
    assert (p.dx + way.dx) * way.dx == p.dx * way.dx + way.dx * way.dx;
  }

  lemma SquarePositive(a: int)
    ensures a == 0 || a * a > 0
  {
  }

  /**
    The mirrored copy is the mirror image about the centre exactly when the matrix is square
    (or covers nothing): the centre column is computed from the number of rows.
   */
  lemma MirrorIsExactIffSquare(out: Area, input: Area)
    requires out.Valid() && input.Valid() && IsMirrorOf(out, input) && CenterInside(input)
    requires out.rows >= input.rows && out.cols >= input.cols
    requires input.rows < 0x1_0000_0000 && input.cols < 0x1_0000_0000
    ensures Offsets(out) == MirroredSet(Offsets(input))
       <==> input.rows == input.cols || Offsets(input) == {}
  {
    hide IsMirrorOf, Lit, MirroredSet, Offsets;
    var mirror := MirroredSet(Offsets(input));
    var shift := input.cols - 1 - out.centerX - input.centerX;
    if input.rows == input.cols || Offsets(input) == {} {
      forall p
        ensures p in Offsets(out) <==> p in mirror
      {
        MirrorMembers(out, input, p);
        if p in Offsets(out) {
          LitMeansCells(input, Offset(p.dy, shift - p.dx));
          MirrorCenter(out, input);
        }
        if p in mirror {
          LitMeansCells(input, Mirrored(p));
          MirrorCenter(out, input);
        }
      }
    } else if Offsets(out) == mirror {
      var some :| some in Offsets(input);
      LitMeansCells(input, some);
      MirrorCenter(out, input);
      forall q | q in Offsets(input)
        ensures Offset(q.dy, q.dx + shift) in Offsets(input)
      {
        MirrorMembers(out, input, Mirrored(q));
      }
      NoDisplacement(Offsets(input), Offset(0, shift));
    }
  }

  lemma MirrorMembers(out: Area, input: Area, p: Offset)
    requires out.Valid() && input.Valid() && IsMirrorOf(out, input)
    requires out.rows >= input.rows && out.cols >= input.cols
    ensures p in Offsets(out) <==> Offset(p.dy, input.cols - 1 - out.centerX - input.centerX - p.dx) in Offsets(input)
    ensures p in MirroredSet(Offsets(input)) <==> Mirrored(p) in Offsets(input)
  {
    hide IsMirrorOf, Lit;
    MirrorLit(out, input, p);
    var f := p => Mirrored(p);
    assert f(Mirrored(p)) == p;
  }

  lemma LitMeansCells(a: Area, p: Offset)
    requires a.Valid() && p in Offsets(a)
    ensures a.rows > 0 && a.cols > 0
  {
  }

  lemma MirrorCenter(out: Area, input: Area)
    requires out.Valid() && input.Valid() && IsMirrorOf(out, input)
    requires input.centerX < input.cols < 0x1_0000_0000 && 0 < input.rows < 0x1_0000_0000
    ensures input.cols - 1 - out.centerX - input.centerX == 0 <==> input.rows == input.cols
  {
  }

  /** The same for the flipped copy, whose centre row is computed from the number of columns. */
  lemma FlipIsExactIffSquare(out: Area, input: Area)
    requires out.Valid() && input.Valid() && IsFlipOf(out, input) && CenterInside(input)
    requires out.rows >= input.rows && out.cols >= input.cols
    requires input.rows < 0x1_0000_0000 && input.cols < 0x1_0000_0000
    ensures Offsets(out) == FlippedSet(Offsets(input))
       <==> input.rows == input.cols || Offsets(input) == {}
  {
    hide IsFlipOf, Lit, FlippedSet, Offsets;
    var flip := FlippedSet(Offsets(input));
    var shift := input.rows - 1 - out.centerY - input.centerY;
    if input.rows == input.cols || Offsets(input) == {} {
      forall p
        ensures p in Offsets(out) <==> p in flip
      {
        FlipMembers(out, input, p);
        if p in Offsets(out) {
          LitMeansCells(input, Offset(shift - p.dy, p.dx));
          FlipCenter(out, input);
        }
        if p in flip {
          LitMeansCells(input, Flipped(p));
          FlipCenter(out, input);
        }
      }
    } else if Offsets(out) == flip {
      var some :| some in Offsets(input);
      LitMeansCells(input, some);
      FlipCenter(out, input);
      forall q | q in Offsets(input)
        ensures Offset(q.dy + shift, q.dx) in Offsets(input)
      {
        FlipMembers(out, input, Flipped(q));
      }
      NoDisplacement(Offsets(input), Offset(shift, 0));
    }
  }

  lemma FlipMembers(out: Area, input: Area, p: Offset)
    requires out.Valid() && input.Valid() && IsFlipOf(out, input)
    requires out.rows >= input.rows && out.cols >= input.cols
    ensures p in Offsets(out) <==> Offset(input.rows - 1 - out.centerY - input.centerY - p.dy, p.dx) in Offsets(input)
    ensures p in FlippedSet(Offsets(input)) <==> Flipped(p) in Offsets(input)
  {
    hide IsFlipOf, Lit;
    FlipLit(out, input, p);
    var f := p => Flipped(p);
    assert f(Flipped(p)) == p;
  }

  lemma FlipCenter(out: Area, input: Area)
    requires out.Valid() && input.Valid() && IsFlipOf(out, input)
    requires input.centerY < input.rows < 0x1_0000_0000 && 0 < input.cols < 0x1_0000_0000
    ensures input.rows - 1 - out.centerY - input.centerY == 0 <==> input.rows == input.cols
  {
  }

  lemma MirrorAfterFlip(s: set<Offset>)
    ensures MirroredSet(FlippedSet(s)) == ReflectedSet(s)
  {
    forall p
      ensures p in MirroredSet(FlippedSet(s)) <==> p in ReflectedSet(s)
    {
      var f, g, h := p => Flipped(p), p => Mirrored(p), p => PointReflected(p);
      if p in ReflectedSet(s) {
        var q :| q in s && h(q) == p;
        assert f(q) in FlippedSet(s) && g(f(q)) == p;
      }
    }
  }

  // ---------------------------------------------------------------------------
  // From a list of values to the matrices of every direction
  // ---------------------------------------------------------------------------

  function Value(list: seq<u32>, k: int): u32 { if 0 <= k < |list| then list[k] else 0 }

  predicate MarksCell(v: u32) { v == 1 || v == 3 }

  predicate MarksCenter(v: u32) { v == 2 || v == 3 }

  /** The last of the first `n` values that marks a centre; -1 if none does. */
  function LastCenter(list: seq<u32>, n: nat): int {
    if n == 0 then -1 else if MarksCenter(Value(list, n - 1)) then n - 1 else LastCenter(list, n - 1)
  }

  /** The matrix written out row by row in the list. */
  ghost predicate Spells(list: seq<u32>, a: Area)
    requires a.Valid()
  {
    && |list| == a.rows * a.cols
    && (forall y, x :: a.Inside(y, x) ==> a.cells[y][x] == MarksCell(Value(list, y * a.cols + x)))
    && var k := LastCenter(list, |list|);
       if k == -1 then a.centerY == a.centerX == 0
       else a.Inside(a.centerY, a.centerX) && a.centerY * a.cols + a.centerX == k
  }

  lemma RowBelow(y: nat, x: nat, rows: nat, cols: nat)
    requires y * cols + x < rows * cols
    ensures y < rows && cols > 0
  {
    assert y >= rows ==> y * cols >= rows * cols;
  }

  /** The first `n` values have been entered, up to row y and column x. */
  ghost predicate Entered(area: MatrixArea, list: seq<u32>, n: nat, y: nat, x: nat)
    reads area, area.data
    requires area.Valid()
  {
    && (forall r, c :: 0 <= r < area.rows && 0 <= c < area.cols ==>
          area.data[r, c] == ((r < y || (r == y && c < x)) && MarksCell(Value(list, r * area.cols + c))))
    && var k := LastCenter(list, n);
       if k == -1 then area.centerY == area.centerX == 0
       else area.centerY < area.rows && area.centerX < area.cols && area.centerY * area.cols + area.centerX == k
  }

  lemma EnteredNothing(area: MatrixArea, list: seq<u32>)
    requires area.Valid() && area.View().Blank() && area.centerY == area.centerX == 0
    ensures Entered(area, list, 0, 0, 0)
  {
    ViewIs(area);
    assert forall r, c :: 0 <= r < area.rows && 0 <= c < area.cols ==> area.View().Inside(r, c);
  }

  lemma EnteredAll(area: MatrixArea, list: seq<u32>, y: nat, x: nat)
    requires area.Valid() && |list| == area.rows * area.cols && Entered(area, list, |list|, y, x)
    requires y * area.cols + x == |list| && (x < area.cols || area.cols == 0)
    ensures Spells(list, area.View())
  {
    ViewIs(area);
    if area.cols > 0 {
      AllRowsDone(y, x, area.rows, area.cols);
    }
  }

  method CreateArea(list: seq<u32>, rows: nat) returns (area: MatrixArea)
    requires rows < 0x1_0000_0000 && |list| < 0x1_0000_0000
    requires if rows == 0 then list == [] else |list| % rows == 0
    ensures area.Valid() && fresh(area) && fresh(area.data)
    ensures area.rows == rows && area.cols == if rows == 0 then 0 else |list| / rows
    ensures Spells(list, area.View())
  {
    var cols := if rows == 0 then 0 else |list| / rows;
    EvenRows(list, rows, cols);
    area := new MatrixArea(rows, cols);
    EnteredNothing(area, list);
    hide Entered, MatrixArea.View, LastCenter, Spells, Value;
    var x, y := 0, 0;
    for i := 0 to |list|
      invariant i == y * cols + x && (x < cols || cols == 0)
      invariant area.Valid() && Entered(area, list, i, y, x)
    {
      RowBelow(y, x, rows, cols);
      SizeBound(rows, cols, list);
      EnterValue(area, list, i, y, x);
      x := x + 1;
      if cols == x {
        EnteredRow(area, list, i + 1, y);
        NextRow(y, cols);
        x := 0;
        y := y + 1;
      }
    }
    EnteredAll(area, list, y, x);
  }

  lemma EvenRows(list: seq<u32>, rows: nat, cols: nat)
    requires if rows == 0 then list == [] && cols == 0 else |list| % rows == 0 && cols == |list| / rows
    ensures |list| == rows * cols
  {
  }

  lemma NextRow(y: nat, cols: nat)
    ensures (y + 1) * cols == y * cols + cols
  {
  }

  lemma EnteredRow(area: MatrixArea, list: seq<u32>, n: nat, y: nat)
    requires area.Valid() && Entered(area, list, n, y, area.cols)
    ensures Entered(area, list, n, y + 1, 0)
  {
  }

  lemma AllRowsDone(y: nat, x: nat, rows: nat, cols: nat)
    requires y * cols + x == rows * cols && x < cols
    ensures y == rows && x == 0
  {
    assert y < rows ==> (y + 1) * cols <= rows * cols;
    assert y > rows ==> y * cols >= (rows + 1) * cols;
  }

  method EnterValue(area: MatrixArea, list: seq<u32>, i: nat, y: nat, x: nat)
    requires area.Valid() && y < area.rows < 0x1_0000_0000 && x < area.cols < 0x1_0000_0000
    requires i < |list| && i == y * area.cols + x && Entered(area, list, i, y, x)
    modifies area`centerY, area`centerX, area.data
    ensures Entered(area, list, i + 1, y, x + 1)
  {
    var value := list[i];
    if value == 1 || value == 3 {
      area.SetValue(y, x, true);
    }
    if value == 2 || value == 3 {
      area.SetCenter(y, x);
    }
    assert Value(list, i) == value;
  }

  lemma SpelledCenterInside(list: seq<u32>, a: Area)
    requires a.Valid() && Spells(list, a)
    ensures CenterInside(a)
  {
  }

  datatype Direction = North | East | South | West | SouthWest | SouthEast | NorthWest | NorthEast

  /** The matrix covers exactly the cells `s`. */
  ghost predicate Outlines(m: MatrixArea, s: set<Offset>)
    reads m, m.data
  {
    m.Valid() && Offsets(m.View()) == s
  }

  class AreaCombat {
    var areas: map<Direction, MatrixArea>
    var hasExtArea: bool

    constructor ()
      ensures areas == map[] && !hasExtArea
    {
      areas, hasExtArea := map[], false;
    }

    /** The area for `d` is there and covers exactly the cells `s`. */
    ghost predicate Covers(d: Direction, s: set<Offset>)
      reads this`areas, areas.Values, set m | m in areas.Values :: m.data
    {
      d in areas && Outlines(areas[d], s)
    }

    /** The four directions cover the cells `s` and their turns. */
    ghost predicate Straight(s: set<Offset>)
      reads this`areas, areas.Values, set m | m in areas.Values :: m.data
    {
      Covers(North, s) && Covers(East, Turned(1, s)) && Covers(South, Turned(2, s)) && Covers(West, Turned(3, s))
    }

    /** The four diagonals cover the cells `s` and their reflections. */
    ghost predicate Diagonal(s: set<Offset>)
      reads this`areas, areas.Values, set m | m in areas.Values :: m.data
    {
      && Covers(NorthWest, s) && Covers(NorthEast, MirroredSet(s))
      && Covers(SouthWest, FlippedSet(s)) && Covers(SouthEast, ReflectedSet(s))
    }

    /** Everything that a target can need is set up. */
    ghost predicate SetUp(north: set<Offset>, northWest: set<Offset>)
      reads this, areas.Values, set m | m in areas.Values :: m.data
    {
      Straight(north) && (hasExtArea ==> Diagonal(northWest))
    }

    lemma ChosenIsCovered(target: Offset, north: set<Offset>, northWest: set<Offset>)
      requires SetUp(north, northWest)
      ensures Covers(DirectionOf(target, hasExtArea), Chosen(target, hasExtArea, north, northWest))
    {
      hide Covers, Turned, MirroredSet, FlippedSet, ReflectedSet;
    }

    /** The area for a target, seen from the caster; none if its direction has not been set up. */
    method GetArea(target: Offset) returns (area: MatrixArea?)
      ensures area == null <==> DirectionOf(target, hasExtArea) !in areas
      ensures forall north, northWest :: SetUp(north, northWest) ==>
                area != null && area.Valid() && Offsets(area.View()) == Chosen(target, hasExtArea, north, northWest)
      ensures forall north, northWest :: SetUp(north, northWest) && target.dx == 0 && target.dy < 0 ==>
                area != null && area.Valid() && Offsets(area.View()) == north
      ensures forall north, northWest :: SetUp(north, northWest) && LiesNorth(north) && LiesNorthWest(northWest) ==>
                area != null && area.Valid() && AimsAt(Offsets(area.View()), target, hasExtArea)
    {
      hide SetUp, Chosen, MatrixArea.View, Offsets, AimsAt, LiesNorth, LiesNorthWest;
      var dir := if target.dx < 0 then West else if target.dx > 0 then East else if target.dy < 0 then North else South;
      if hasExtArea {
        if target.dx < 0 && target.dy < 0 {
          dir := NorthWest;
        } else if target.dx > 0 && target.dy < 0 {
          dir := NorthEast;
        } else if target.dx < 0 && target.dy > 0 {
          dir := SouthWest;
        } else if target.dx > 0 && target.dy > 0 {
          dir := SouthEast;
        }
      }
      area := if dir in areas then areas[dir] else null;
      forall north, northWest | SetUp(north, northWest)
        ensures Covers(dir, Chosen(target, hasExtArea, north, northWest))
      {
        ChosenIsCovered(target, north, northWest);
      }
      forall north, northWest
        ensures target.dx == 0 && target.dy < 0 ==> Chosen(target, hasExtArea, north, northWest) == north
        ensures LiesNorth(north) && LiesNorthWest(northWest) ==> AimsAt(Chosen(target, hasExtArea, north, northWest), target, hasExtArea)
      {
        DueNorth(target, hasExtArea, north, northWest);
        if LiesNorth(north) && LiesNorthWest(northWest) {
          ChosenAims(target, hasExtArea, north, northWest);
        }
      }
    }

    method InstallStraight(n: MatrixArea, e: MatrixArea, s: MatrixArea, w: MatrixArea, ghost cells: set<Offset>)
      requires Outlines(n, cells) && Outlines(e, Turned(1, cells)) && Outlines(s, Turned(2, cells)) && Outlines(w, Turned(3, cells))
      modifies this`areas
      ensures Straight(cells)
      ensures areas == old(areas)[North := n][South := s][East := e][West := w]
      ensures forall cells :: old(Diagonal(cells)) ==> Diagonal(cells)
    {
      areas := areas[North := n][South := s][East := e][West := w];
      hide Offsets, MatrixArea.View, Turned;
    }

    method InstallDiagonal(nw: MatrixArea, ne: MatrixArea, sw: MatrixArea, se: MatrixArea)
      modifies this`areas
      ensures areas == old(areas)[NorthWest := nw][NorthEast := ne][SouthWest := sw][SouthEast := se]
      ensures forall cells ::
                (Outlines(nw, cells) && Outlines(ne, MirroredSet(cells))
                 && Outlines(sw, FlippedSet(cells)) && Outlines(se, ReflectedSet(cells))) ==> Diagonal(cells)
      ensures forall cells :: old(Straight(cells)) ==> Straight(cells)
    {
      areas := areas[NorthWest := nw][NorthEast := ne][SouthWest := sw][SouthEast := se];
      hide Offsets, MatrixArea.View, Turned, MirroredSet, FlippedSet, ReflectedSet;
    }

    /** One description for the north gives all four directions, each a quarter turn on. */
    method SetupArea(list: seq<u32>, rows: nat) returns (ghost north: Area)
      requires rows < 0x8000_0000 && |list| < 0x8000_0000
      requires if rows == 0 then list == [] else |list| % rows == 0
      modifies this
      ensures north.Valid() && Spells(list, north) && north.rows == rows
      ensures Straight(Offsets(north)) && forall s :: old(Diagonal(s)) ==> Diagonal(s)
      ensures hasExtArea == old(hasExtArea)
      ensures forall d :: d in old(areas) && d !in {North, East, South, West} ==> d in areas && areas[d] == old(areas[d])
    {
      hide MatrixArea.View, Spells, Offsets, Turned, Diagonal, Straight, AreaCombat.Covers;
      var area := CreateArea(list, rows);
      north := area.View();
      ViewIs(area);
      SpelledCenterInside(list, north);
      EvenRows(list, area.rows, area.cols);
      SizeBound(area.rows, area.cols, list);
      var maxOutput := Max(area.cols, area.rows) * 2;
      var southArea := RotatedCopy(area, maxOutput, Rotate180);
      var eastArea := RotatedCopy(area, maxOutput, Rotate90);
      var westArea := RotatedCopy(area, maxOutput, Rotate270);
      assert forall s :: old(Diagonal(s)) ==> Diagonal(s);
      InstallStraight(area, eastArea, southArea, westArea, Offsets(north));
    }

    /** The four diagonals, made by mirroring and flipping the north-western one. */
    method SetupExtArea(list: seq<u32>, rows: nat) returns (ghost northWest: Area)
      requires rows < 0x4000_0000 && |list| < 0x4000_0000
      requires if rows == 0 then list == [] else |list| % rows == 0
      modifies this
      ensures northWest.Valid()
      ensures list == [] ==> areas == old(areas) && hasExtArea == old(hasExtArea)
      ensures list != [] ==> hasExtArea && Spells(list, northWest) && northWest.rows == rows
      ensures list != [] && northWest.rows == northWest.cols ==> Diagonal(Offsets(northWest))
      ensures forall s :: old(Straight(s)) ==> Straight(s)
      ensures forall d :: d in old(areas) && d !in {NorthWest, NorthEast, SouthWest, SouthEast} ==> d in areas && areas[d] == old(areas[d])
    {
      hide IsMirrorOf, IsFlipOf, MatrixArea.View, Spells, Offsets, Straight, Diagonal, AreaCombat.Covers, MirroredSet, FlippedSet, ReflectedSet;
      if list == [] {
        return Area(0, 0, [], 0, 0);
      }
      hasExtArea := true;
      var area := CreateArea(list, rows);
      northWest := area.View();
      ViewIs(area);
      SpelledCenterInside(list, northWest);
      SizeBound(area.rows, area.cols, list);
      var maxOutput := Max(area.cols, area.rows) * 2;
      var neArea := MirroredCopy(area, maxOutput);
      var swArea := FlippedCopy(area, maxOutput);
      var seArea := MirroredCopy(swArea, maxOutput);
      assert forall s :: old(Straight(s)) ==> Straight(s);
      InstallDiagonal(area, neArea, swArea, seArea);
      if area.rows == area.cols {
        DiagonalsExact(northWest, neArea.View(), swArea.View(), seArea.View());
        assert Outlines(area, Offsets(northWest));
      }
    }
  }

  lemma SizeBound(rows: nat, cols: nat, list: seq<u32>)
    requires |list| == rows * cols
    ensures rows > 0 ==> cols <= |list|
  {
    if rows > 0 {
      assert rows * cols >= 1 * cols;
    }
  }

  /** Mirroring and flipping a square area gives the three reflections of its cell set. */
  lemma DiagonalsExact(nw: Area, ne: Area, sw: Area, se: Area)
    requires nw.Valid() && ne.Valid() && sw.Valid() && se.Valid() && CenterInside(nw)
    requires nw.rows == nw.cols < 0x4000_0000
    requires ne.rows == ne.cols == sw.rows == sw.cols == se.rows == se.cols == 2 * nw.rows
    requires IsMirrorOf(ne, nw) && IsFlipOf(sw, nw) && IsMirrorOf(se, sw)
    ensures Offsets(ne) == MirroredSet(Offsets(nw))
    ensures Offsets(sw) == FlippedSet(Offsets(nw))
    ensures Offsets(se) == ReflectedSet(Offsets(nw))
  {
    MirrorIsExactIffSquare(ne, nw);
    FlipIsExactIffSquare(sw, nw);
    assert CenterInside(sw);
    MirrorIsExactIffSquare(se, sw);
    MirrorAfterFlip(Offsets(nw));
  }

  method RotatedCopy(area: MatrixArea, size: nat, op: Operation) returns (copy: MatrixArea)
    requires area.Valid() && IsRotation(op) && CenterInside(area.View())
    requires size == 2 * Max(area.rows, area.cols) < 0x1_0000_0000
    ensures fresh(copy) && fresh(copy.data) && copy.Valid()
    ensures Offsets(copy.View()) == Turned(QuarterTurns(op), Offsets(area.View()))
  {
    copy := new MatrixArea(size, size);
    CopyArea(area, copy, op);
    ViewIs(copy);
    ViewIs(area);
    RotationIsExact(copy.View(), op, area.View());
  }

  method MirroredCopy(area: MatrixArea, size: nat) returns (copy: MatrixArea)
    requires area.Valid() && size >= area.rows && size >= area.cols
    ensures fresh(copy) && fresh(copy.data) && copy.Valid()
    ensures var a := copy.View(); a.rows == a.cols == size && IsMirrorOf(a, area.View())
  {
    copy := new MatrixArea(size, size);
    CopyArea(area, copy, Mirror);
    ViewIs(copy);
  }

  method FlippedCopy(area: MatrixArea, size: nat) returns (copy: MatrixArea)
    requires area.Valid() && size >= area.rows && size >= area.cols
    ensures fresh(copy) && fresh(copy.data) && copy.Valid() && copy.rows == copy.cols == size
    ensures var a := copy.View(); a.rows == a.cols == size && IsFlipOf(a, area.View())
  {
    copy := new MatrixArea(size, size);
    CopyArea(area, copy, Flip);
    ViewIs(copy);
  }

  // ---------------------------------------------------------------------------
  // Choosing a direction
  // ---------------------------------------------------------------------------

  /** The direction whose area is used for a target at `p` from the caster. */
  function DirectionOf(p: Offset, hasExtArea: bool): Direction {
    var straight := if p.dx < 0 then West else if p.dx > 0 then East else if p.dy < 0 then North else South;
    if !hasExtArea then straight
    else if p.dx < 0 && p.dy < 0 then NorthWest
    else if p.dx > 0 && p.dy < 0 then NorthEast
    else if p.dx < 0 && p.dy > 0 then SouthWest
    else if p.dx > 0 && p.dy > 0 then SouthEast
    else straight
  }

  /** The cells set up for a direction: turns of the north, reflections of the north-west. */
  ghost function CellsOf(d: Direction, north: set<Offset>, northWest: set<Offset>): set<Offset> {
    match d
    case North => north
    case East => Turned(1, north)
    case South => Turned(2, north)
    case West => Turned(3, north)
    case NorthWest => northWest
    case NorthEast => MirroredSet(northWest)
    case SouthWest => FlippedSet(northWest)
    case SouthEast => ReflectedSet(northWest)
  }

  /** The cells that are hit for a target at `p` from the caster. */
  ghost function Chosen(p: Offset, hasExtArea: bool, north: set<Offset>, northWest: set<Offset>): set<Offset> {
    CellsOf(DirectionOf(p, hasExtArea), north, northWest)
  }

  function Unturned(p: Offset): Offset { Offset(-p.dx, p.dy) }

  lemma InTurned(p: Offset, s: set<Offset>)
    ensures p in Turned(1, s) <==> Unturned(p) in s
  {
    var f := p => Turn(1, p);
    assert forall q :: f(q) == QuarterTurn(q) by {
      forall q ensures f(q) == QuarterTurn(q) { assert Turn(0, q) == q; }
    }
    assert f(Unturned(p)) == p;
  }

  lemma InReflections(p: Offset, s: set<Offset>)
    ensures p in MirroredSet(s) <==> Mirrored(p) in s
    ensures p in FlippedSet(s) <==> Flipped(p) in s
    ensures p in ReflectedSet(s) <==> PointReflected(p) in s
  {
    var f, g, h := p => Mirrored(p), p => Flipped(p), p => PointReflected(p);
    assert f(Mirrored(p)) == p && g(Flipped(p)) == p && h(PointReflected(p)) == p;
  }

  lemma TurnedOnce(k: nat, s: set<Offset>)
    ensures Turned(1, Turned(k, s)) == Turned(k + 1, s)
  {
    var f, g, h := p => Turn(k, p), p => Turn(1, p), p => Turn(k + 1, p);
    forall q
      ensures h(q) == g(f(q))
    {
      assert Turn(1, f(q)) == QuarterTurn(Turn(0, f(q)));
    }
    forall p
      ensures p in Turned(1, Turned(k, s)) <==> p in Turned(k + 1, s)
    {
      if p in Turned(k + 1, s) {
        var q :| q in s && h(q) == p;
        assert f(q) in Turned(k, s);
      }
    }
  }

  lemma FullTurn(s: set<Offset>)
    ensures Turned(4, s) == s
  {
    var f := p => Turn(4, p);
    forall q
      ensures f(q) == q
    {
      assert Turn(1, q) == QuarterTurn(q) && Turn(2, q) == QuarterTurn(Turn(1, q));
      assert Turn(3, q) == QuarterTurn(Turn(2, q)) && Turn(4, q) == QuarterTurn(Turn(3, q));
    }
    assert forall q :: q in s ==> f(q) in Turned(4, s);
  }

  ghost predicate LiesNorth(s: set<Offset>) { forall o :: o in s ==> o.dy < 0 }

  ghost predicate LiesNorthWest(s: set<Offset>) { forall o :: o in s ==> o.dy < 0 && o.dx < 0 }

  /** a lies on the same side as b, if b is on a side at all. */
  predicate SameSide(a: int, b: int) { (b < 0 ==> a < 0) && (b > 0 ==> a > 0) }

  /**
    The cells lie on the target's side: with diagonals in both ways, without them to the west or the east if
    the target is, and otherwise to the north or the south, where a target under the caster counts as south.
   */
  ghost predicate AimsAt(cells: set<Offset>, target: Offset, diagonals: bool) {
    forall o :: o in cells ==>
      if target.dx == 0 then (if target.dy < 0 then o.dy < 0 else o.dy > 0)
      else SameSide(o.dx, target.dx) && (diagonals ==> SameSide(o.dy, target.dy))
  }

  lemma DueNorth(target: Offset, hasExtArea: bool, north: set<Offset>, northWest: set<Offset>)
    ensures target.dx == 0 && target.dy < 0 ==> Chosen(target, hasExtArea, north, northWest) == north
  {
  }

  lemma InTurns(p: Offset, s: set<Offset>)
    ensures p in Turned(1, s) <==> Offset(-p.dx, p.dy) in s
    ensures p in Turned(2, s) <==> Offset(-p.dy, -p.dx) in s
    ensures p in Turned(3, s) <==> Offset(p.dx, -p.dy) in s
  {
    TurnedOnce(1, s);
    TurnedOnce(2, s);
    InTurned(p, s);
    InTurned(p, Turned(1, s));
    InTurned(Unturned(p), s);
    InTurned(p, Turned(2, s));
    InTurned(Unturned(p), Turned(1, s));
    InTurned(Unturned(Unturned(p)), s);
  }

  /** What is chosen lies on the target's side. */
  lemma ChosenAims(target: Offset, hasExtArea: bool, north: set<Offset>, northWest: set<Offset>)
    requires LiesNorth(north) && LiesNorthWest(northWest)
    ensures AimsAt(Chosen(target, hasExtArea, north, northWest), target, hasExtArea)
  {
    hide Turned, MirroredSet, FlippedSet, ReflectedSet;
    var cells := Chosen(target, hasExtArea, north, northWest);
    forall o | o in cells
      ensures if target.dx == 0 then (if target.dy < 0 then o.dy < 0 else o.dy > 0)
              else SameSide(o.dx, target.dx) && (hasExtArea ==> SameSide(o.dy, target.dy))
    {
      InTurns(o, north);
      InReflections(o, northWest);
    }
  }

  /** On the axes the cells that are hit turn with the target. */
  lemma ChoiceTurnsWithTarget(p: Offset, hasExtArea: bool, north: set<Offset>, northWest: set<Offset>)
    requires p != Offset(0, 0) && (p.dx == 0 || p.dy == 0)
    ensures Chosen(QuarterTurn(p), hasExtArea, north, northWest) == Turned(1, Chosen(p, hasExtArea, north, northWest))
  {
    hide Turned;
    FullTurn(north);
    TurnedOnce(1, north);
    TurnedOnce(2, north);
    TurnedOnce(3, north);
  }

  /** The set is its own reflection about the diagonal through north-west. */
  ghost predicate Transposed(s: set<Offset>) { forall p :: p in s <==> Offset(p.dx, p.dy) in s }

  lemma TransposedAt(s: set<Offset>, p: Offset)
    requires Transposed(s)
    ensures p in s <==> Offset(p.dx, p.dy) in s
  {
  }

  /**
    Off the axes the diagonal areas are reflections and not turns: the cells that are hit turn
    with the target if and only if the north-western area is its own reflection about the diagonal.
   */
  lemma DiagonalChoiceTurnsIff(p: Offset, north: set<Offset>, northWest: set<Offset>)
    requires p.dx != 0 && p.dy != 0
    ensures Chosen(QuarterTurn(p), true, north, northWest) == Turned(1, Chosen(p, true, north, northWest))
       <==> Transposed(northWest)
  {
    hide Turned, MirroredSet, FlippedSet, ReflectedSet, Transposed;
    var now, next := Chosen(p, true, north, northWest), Chosen(QuarterTurn(p), true, north, northWest);
    if Transposed(northWest) {
      forall q
        ensures q in next <==> q in Turned(1, now)
      {
        InTurned(q, now);
        InReflections(q, northWest);
        InReflections(Unturned(q), northWest);
        TransposedAt(northWest, q);
        TransposedAt(northWest, Mirrored(q));
        TransposedAt(northWest, Flipped(q));
        TransposedAt(northWest, PointReflected(q));
      }
    }
    if next == Turned(1, now) {
      forall q
        ensures q in northWest <==> Offset(q.dx, q.dy) in northWest
      {
        var r := if p.dx < 0 then (if p.dy < 0 then Mirrored(q) else q) else (if p.dy < 0 then PointReflected(q) else Flipped(q));
        InTurned(r, now);
        InReflections(r, northWest);
        InReflections(Unturned(r), northWest);
      }
      IsTransposed(northWest);
    }
  }

  lemma IsTransposed(s: set<Offset>)
    requires forall q :: q in s <==> Offset(q.dx, q.dy) in s
    ensures Transposed(s)
  {
  }

  /** What always holds off the axes: a mirrored target is hit with the mirrored cells. */
  lemma DiagonalChoiceMirrors(p: Offset, north: set<Offset>, northWest: set<Offset>)
    requires p.dx != 0 && p.dy != 0
    ensures Chosen(Mirrored(p), true, north, northWest) == MirroredSet(Chosen(p, true, north, northWest))
  {
    hide MirroredSet, FlippedSet, ReflectedSet;
    var now, mirrored := Chosen(p, true, north, northWest), Chosen(Mirrored(p), true, north, northWest);
    forall q
      ensures q in mirrored <==> q in MirroredSet(now)
    {
      InReflections(q, now);
      InReflections(q, northWest);
      InReflections(Mirrored(q), northWest);
    }
  }
}
