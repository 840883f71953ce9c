/**
 * The display half of the PIA: a 40 x 24 character grid with a cursor, a data
 * register that accepts the backspace/erase byte 0x5F and the no-op byte 0x7F,
 * and a control register with the same one-shot latch as the keyboard's.
 */
module ScreenPort {
  import opened Common

  const Lines: nat := 24
  const Columns: nat := 40
  const Cells: nat := 960

  /** Cursor-left-and-erase. */
  const Backspace: Byte := 0x5F
  /** Delete, which the display ignores. */
  const Rubout: Byte := 0x7F

  /** The fields of the screen: `chars`, the cursor `x`/`y`, `cr` and `output`. */
  datatype ScreenState = ScreenState(chars: seq<Byte>, x: int, y: int, cr: Byte, output: bool)

  /** The grid has every cell and the cursor is on it. */
  predicate Consistent(s: ScreenState)
  {
    |s.chars| == Cells && 0 <= s.x < Columns && 0 <= s.y < Lines
  }

  /** Row-major index of the cell at column `x`, row `y`. */
  function Cell(x: int, y: int): int
  {
    y * Columns + x
  }

  /** Every on-grid cursor names a distinct cell of the 960. */
  lemma CellIndex(x: int, y: int, x': int, y': int)
    requires 0 <= x < Columns && 0 <= y < Lines
    requires 0 <= x' < Columns && 0 <= y' < Lines
    ensures 0 <= Cell(x, y) < Cells
    ensures Cell(x, y) == Cell(x', y') ==> x == x' && y == y'
  {
    if y < y' {
      assert Cell(x, y) < (y + 1) * Columns <= Cell(x', y');
    } else if y' < y {
      assert Cell(x', y') < (y' + 1) * Columns <= Cell(x, y);
    }
  }

  /** The state of a new screen: a blank grid, the cursor home, output off. */
  function Initial(): (s: ScreenState)
    ensures Consistent(s)
    ensures forall i :: 0 <= i < |s.chars| ==> s.chars[i] == 0
    ensures s.x == 0 && s.y == 0 && s.cr == 0 && !s.output
  {
    ScreenState(seq(Cells, _ => 0), 0, 0, 0, false)
  }

  /** Move the cursor to (x, y) and blank the cell there. */
  function EraseAt(s: ScreenState, x: int, y: int): ScreenState
    requires |s.chars| == Cells && 0 <= x < Columns && 0 <= y < Lines
  {
    CellIndex(x, y, x, y);
    s.(x := x, y := y, chars := s.chars[Cell(x, y) := 0])
  }

  /** The character dispatch of a data write, before the wrap checks. */
  function Handle(s: ScreenState, c: Byte): Result<ScreenState>
    requires Consistent(s)
  {
    if c == Backspace then
      if s.x == 0 then
        if s.y == 0 then Err(CursorUnderflow) else Ok(EraseAt(s, Columns - 1, s.y - 1))
      else
        Ok(EraseAt(s, s.x - 1, s.y))
    else if c == Rubout then
      Ok(s)
    else
      Err(UnsupportedCharacter(c))
  }

  /** The wrap checks after every data write: column overflow starts a row, row overflow needs `new_line`. */
  function WrapCursor(s: ScreenState): Result<ScreenState>
  {
    var t := if s.x == Columns then s.(x := 0, y := s.y + 1) else s;
    if t.y == Lines then Err(NewLineUnimplemented) else Ok(t)
  }

  /**
   * A write to the display data register. Backspace moves the cursor one cell
   * back in reading order and blanks that cell and no other; Rubout changes
   * nothing; every other byte, and backspace at the top-left corner, fails.
   * The wrap checks never fire, so `new_line` is never reached.
   */
  function Put(s: ScreenState, c: Byte): (r: Result<ScreenState>)
    requires Consistent(s)
    ensures r.Ok? <==> c == Rubout || (c == Backspace && Cell(s.x, s.y) > 0)
    ensures r.Ok? ==> Consistent(r.value) && r.value.cr == s.cr && r.value.output == s.output
    ensures c == Rubout ==> r == Ok(s)
    ensures r.Ok? && c == Backspace ==>
      Cell(r.value.x, r.value.y) == Cell(s.x, s.y) - 1 &&
      r.value.chars == s.chars[Cell(r.value.x, r.value.y) := 0]
    ensures r.Err? ==> r.fault == (if c == Backspace then CursorUnderflow else UnsupportedCharacter(c))
  {
    match Handle(s, c)
    case Err(f) => Err(f)
    case Ok(t) => WrapCursor(t)
  }

  /** A write to the display control register: the keyboard's one-shot latch, on `output`. */
  function WriteControl(s: ScreenState, v: Byte): (t: ScreenState)
    ensures t.chars == s.chars && t.x == s.x && t.y == s.y
    ensures t.output == (s.output || HighBit(v))
    ensures !s.output && HighBit(v) ==> t.cr == s.cr
    ensures s.output || !HighBit(v) ==> t.cr == v
  {
    var (on, reg) := LatchWrite(s.output, s.cr, v);
    s.(cr := reg, output := on)
  }

  /** Blank the grid and home the cursor; the control register and the latch stay. */
  function Cleared(s: ScreenState): (t: ScreenState)
    ensures Consistent(t)
    ensures forall i :: 0 <= i < |t.chars| ==> t.chars[i] == 0
    ensures t.x == 0 && t.y == 0 && t.cr == s.cr && t.output == s.output
  {
    s.(chars := seq(Cells, _ => 0), x := 0, y := 0)
  }

  /** The operations the screen offers to the bus and to the display collaborator. */
  datatype ScreenOp = DataWrite(c: Byte) | ControlWrite(v: Byte) | Clear

  /** One operation; a failing data write leaves the state as it was. */
  function Step(s: ScreenState, op: ScreenOp): (t: ScreenState)
    requires Consistent(s)
    ensures Consistent(t)
  {
    match op
    case DataWrite(c) => (match Put(s, c) case Ok(t) => t case Err(_) => s)
    case ControlWrite(v) => WriteControl(s, v)
    case Clear => Cleared(s)
  }

  function Run(s: ScreenState, ops: seq<ScreenOp>): ScreenState
    requires Consistent(s)
    decreases |ops|
  {
    if ops == [] then s else Run(Step(s, ops[0]), ops[1..])
  }

  /** The cursor stays on the grid and `output` never reverts, whatever the screen is asked to do. */
  lemma {:induction false} RunKeepsInvariant(s: ScreenState, ops: seq<ScreenOp>)
    requires Consistent(s)
    ensures Consistent(Run(s, ops))
    ensures s.output ==> Run(s, ops).output
    decreases |ops|
  {
    if ops != [] {
      RunKeepsInvariant(Step(s, ops[0]), ops[1..]);
    }
  }

  /**
   * The screen object. Its grid is a fixed 960-byte array updated in place;
   * each method is one register operation, specified by the functions above.
   */
  class Screen {
    const chars: array<Byte>
    var x: nat
    var y: nat
    var cr: Byte
    var output: bool

    ghost predicate Valid()
      reads this
    {
      chars.Length == Cells && x < Columns && y < Lines
    }

    ghost function State(): ScreenState
      reads this, chars
    {
      ScreenState(chars[..], x, y, cr, output)
    }

    constructor ()
      ensures Valid() && fresh(chars)
      ensures State() == Initial()
    {
      chars := new Byte[Cells](_ => 0);
      x, y, cr, output := 0, 0, 0, false;
    }

    /** Write one byte to the data register (the source's `write`). */
    method Write(c: Byte) returns (r: Outcome)
      requires Valid()
      modifies this, chars
      ensures Valid()
      ensures Put(old(State()), c).Ok? ==> r == Pass && State() == Put(old(State()), c).value
      ensures Put(old(State()), c).Err? ==> r == Fail(Put(old(State()), c).fault) && State() == old(State())
    {
      var nx: int, ny: int := x, y;
      if c == Backspace {
        if nx == 0 {
          if ny == 0 {
            return Fail(CursorUnderflow);
          }
          ny, nx := ny - 1, Columns - 1;
        } else {
          nx := nx - 1;
        }
        CellIndex(nx, ny, nx, ny);
        chars[ny * Columns + nx] := 0;
      } else if c != Rubout {
        return Fail(UnsupportedCharacter(c));
      }
      if nx == Columns {
        nx, ny := 0, ny + 1;
      }
      if ny == Lines {
        ny := 0;
        r := Fail(NewLineUnimplemented);
      } else {
        r := Pass;
      }
      x, y := nx, ny;
    }

    /** Write the control register (the source's `write_cr`). */
    method WriteCr(v: Byte)
      requires Valid()
      modifies this
      ensures Valid()
      ensures State() == WriteControl(old(State()), v)
    {
      if !output && HighBit(v) {
        output := true;
      } else {
        cr := v;
      }
    }

    /** Blank the grid and home the cursor (the source's `clear`). */
    method Clear()
      requires Valid()
      modifies this, chars
      ensures Valid()
      ensures State() == Cleared(old(State()))
    {
      forall i | 0 <= i < chars.Length {
        chars[i] := 0;
      }
      x, y := 0, 0;
    }
  }
}
