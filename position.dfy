/**
 * The starting position of a CSA record: either the whole 9x9 board in
 * `P1`..`P9` lines, or a `PI` line (the standard start) followed by the
 * pieces it lists; then one `P` line per extra piece; then the side to move.
 */
module Board {
  import opened Wrappers
  import opened Decimal
  import opened Text
  import opened Tokens

  /** One square of a board given in bulk: empty, or a piece of one side. */
  type Cell = Option<(Color, PieceType)>

  /** A rank of the board: always nine cells. */
  type Row = r: seq<Cell> | |r| == 9
    witness [None, None, None, None, None, None, None, None, None]

  const EmptyRow: Row := [None, None, None, None, None, None, None, None, None]

  /** A whole board: always nine rows. */
  type Grid = g: seq<Row> | |g| == 9
    witness [EmptyRow, EmptyRow, EmptyRow, EmptyRow, EmptyRow, EmptyRow, EmptyRow, EmptyRow, EmptyRow]

  datatype Position = Position(
    dropPieces: seq<(Square, PieceType)>,
    bulk: Option<Grid>,
    addPieces: seq<(Color, Square, PieceType)>,
    sideToMove: Color)

  /** The derived `Default`: no board, no pieces, Black to move. */
  function DefaultPosition(): (p: Position)
    ensures PositionText(p) == "PI\n+\n"
  {
    var p := Position([], None, [], DefaultColor());
    assert AddLines([]) == [];
    p
  }

  // ------------------------------------------------------ the text, as specified

  /** An occupied cell is the side and the piece code; an empty one is ` * `. */
  function CellText(c: Cell): (s: string)
    ensures |s| == 3 && NoNewline(s)
    ensures c.None? <==> s == " * "
  {
    match c
    case Some((color, pt)) =>
      var s := ColorText(color) + PieceCode(pt);
      assert s[0] == ColorText(color)[0] && s[0] != ' ';
      s
    case None => " * "
  }

  function ParseCell(s: string): Option<Cell>
  {
    if s == " * " then Some(None)
    else if |s| == 3 && ParseColor(s[0]).Some? && ParsePiece(s[1..]).Some? then
      Some(Some((ParseColor(s[0]).value, ParsePiece(s[1..]).value)))
    else None
  }

  /** A cell token reads back as the cell: a bulk board is written without loss. */
  lemma CellRoundTrip(c: Cell)
    ensures ParseCell(CellText(c)) == Some(c)
  {
    if c.Some? {
      var s := CellText(c);
      assert s[1..] == PieceCode(c.value.1);
      PieceCodeRoundTrip(c.value.1, s[1..]);
    }
  }

  function CellTexts(row: Row): seq<string>
  {
    seq(9, k requires 0 <= k < 9 => CellText(row[k]))
  }

  /** Line `P<i+1>` of a bulk board: the row number, its nine cells, a newline. */
  function RowLine(i: nat, row: Row): string
  {
    "P" + NatToString(i + 1) + Concat(CellTexts(row)) + "\n"
  }

  function RowLines(g: Grid): seq<string>
  {
    seq(9, i requires 0 <= i < 9 => RowLine(i, g[i]))
  }

  function DropToken(d: (Square, PieceType)): string
  {
    SquareText(d.0) + PieceCode(d.1)
  }

  function DropTokens(drops: seq<(Square, PieceType)>): seq<string>
  {
    seq(|drops|, k requires 0 <= k < |drops| => DropToken(drops[k]))
  }

  /** `PI`, each listed piece as square and code, a newline. */
  function SparseText(drops: seq<(Square, PieceType)>): string
  {
    "PI" + Concat(DropTokens(drops)) + "\n"
  }

  /** `P`, side, square, piece code, a newline. */
  function AddLine(a: (Color, Square, PieceType)): string
  {
    "P" + ColorText(a.0) + SquareText(a.1) + PieceCode(a.2) + "\n"
  }

  function AddLines(adds: seq<(Color, Square, PieceType)>): seq<string>
  {
    seq(|adds|, k requires 0 <= k < |adds| => AddLine(adds[k]))
  }

  /** The board block: the bulk board when there is one, else the `PI` line. */
  function PrimaryText(p: Position): string
  {
    match p.bulk
    case Some(g) => Concat(RowLines(g))
    case None => SparseText(p.dropPieces)
  }

  function PositionText(p: Position): string
  {
    PrimaryText(p) + Concat(AddLines(p.addPieces)) + ColorText(p.sideToMove) + "\n"
  }

  // ------------------------------------------------------ what the text promises

  /** With a bulk board the listed pieces are not written at all. */
  lemma BulkIgnoresDrops(p: Position, drops: seq<(Square, PieceType)>)
    requires p.bulk.Some?
    ensures PositionText(p.(dropPieces := drops)) == PositionText(p)
  {
  }

  /** A string without a newline, then a newline, is one line. */
  lemma RowLineIsOneLine(i: nat, row: Row)
    ensures Count(RowLine(i, row), '\n') == 1
  {
    NoNewlineConcat(CellTexts(row));
    NoNewlineAppend("P", NatToString(i + 1));
    NoNewlineAppend("P" + NatToString(i + 1), Concat(CellTexts(row)));
    OneLine("P" + NatToString(i + 1) + Concat(CellTexts(row)));
  }

  lemma AddLineIsOneLine(a: (Color, Square, PieceType))
    ensures Count(AddLine(a), '\n') == 1
  {
    var body := "P" + ColorText(a.0) + SquareText(a.1) + PieceCode(a.2);
    NoNewlineAppend("P", ColorText(a.0));
    NoNewlineAppend("P" + ColorText(a.0), SquareText(a.1));
    NoNewlineAppend("P" + ColorText(a.0) + SquareText(a.1), PieceCode(a.2));
    OneLine(body);
  }

  lemma SparseTextIsOneLine(drops: seq<(Square, PieceType)>)
    ensures Count(SparseText(drops), '\n') == 1
  {
    var tokens := DropTokens(drops);
    forall k | 0 <= k < |tokens| ensures NoNewline(tokens[k]) {
      NoNewlineAppend(SquareText(drops[k].0), PieceCode(drops[k].1));
    }
    NoNewlineConcat(tokens);
    NoNewlineAppend("PI", Concat(tokens));
    OneLine("PI" + Concat(tokens));
  }

  lemma PrimaryLineCount(p: Position)
    ensures Count(PrimaryText(p), '\n') == if p.bulk.Some? then 9 else 1
  {
    match p.bulk {
      case Some(g) =>
        forall i | 0 <= i < 9 ensures Count(RowLines(g)[i], '\n') == 1 {
          RowLineIsOneLine(i, g[i]);
        }
        CountConcat(RowLines(g), '\n');
      case None =>
        SparseTextIsOneLine(p.dropPieces);
    }
  }

  lemma AddLinesCount(adds: seq<(Color, Square, PieceType)>)
    ensures Count(Concat(AddLines(adds)), '\n') == |adds|
  {
    var lines := AddLines(adds);
    forall k | 0 <= k < |lines| ensures Count(lines[k], '\n') == 1 {
      AddLineIsOneLine(adds[k]);
    }
    CountConcat(lines, '\n');
  }

  /** The block has nine lines with a bulk board and one without, then one
      line per extra piece, then the side-to-move line. */
  lemma PositionLineCount(p: Position)
    ensures Count(PositionText(p), '\n') == (if p.bulk.Some? then 9 else 1) + |p.addPieces| + 1
  {
    var primary, adds, side := PrimaryText(p), Concat(AddLines(p.addPieces)), ColorText(p.sideToMove);
    PrimaryLineCount(p);
    AddLinesCount(p.addPieces);
    OneLine(side);
    AppendAssoc(primary + adds, side, "\n");
    CountAppend3(primary, adds, side + "\n", '\n');
  }

  /** The last line names the side to move. */
  lemma PositionEndsWithSide(p: Position)
    ensures |PositionText(p)| >= 2
    ensures PositionText(p)[|PositionText(p)| - 2..] == ColorText(p.sideToMove) + "\n"
  {
  }

  /** A row line is `P`, the row digit, nine three-character cell tokens and
      a newline: 30 characters. */
  lemma RowLineLayout(i: nat, row: Row, k: nat)
    requires i < 9 && k < 9
    ensures |RowLine(i, row)| == 30
    ensures RowLine(i, row)[0] == 'P' && RowLine(i, row)[1] == DigitChar(i + 1)
    ensures RowLine(i, row)[2 + 3 * k .. 5 + 3 * k] == CellText(row[k])
    ensures RowLine(i, row)[29] == '\n'
  {
    var cells := CellTexts(row);
    ConcatUniformAt(cells, 3, k);
    var line := RowLine(i, row);
    assert line == "P" + [DigitChar(i + 1)] + Concat(cells) + "\n";
    assert line[2 + 3 * k .. 5 + 3 * k] == Concat(cells)[3 * k .. 3 * k + 3];
  }

  /** A bulk board is exactly nine lines, `P1` to `P9` in order, and cell `k`
      of row `i` can be read off at a fixed place. */
  lemma BulkLayout(g: Grid, i: nat, k: nat)
    requires i < 9 && k < 9
    ensures |Concat(RowLines(g))| == 270
    ensures Concat(RowLines(g))[30 * i .. 30 * i + 30] == RowLine(i, g[i])
    ensures RowLine(i, g[i])[..2] == "P" + NatToString(i + 1)
    ensures RowLine(i, g[i])[2 + 3 * k .. 5 + 3 * k] == CellText(g[i][k])
    ensures ParseCell(RowLine(i, g[i])[2 + 3 * k .. 5 + 3 * k]) == Some(g[i][k])
  {
    var lines := RowLines(g);
    forall j | 0 <= j < 9 ensures |lines[j]| == 30 {
      RowLineLayout(j, g[j], 0);
    }
    ConcatUniformAt(lines, 30, i);
    RowLineLayout(i, g[i], k);
    CellRoundTrip(g[i][k]);
  }

  /** With single-digit squares each listed piece is four characters after
      `PI`, in list order. */
  lemma SparseLayout(drops: seq<(Square, PieceType)>, k: nat)
    requires forall j :: 0 <= j < |drops| ==> SingleDigit(drops[j].0)
    requires k < |drops|
    ensures |SparseText(drops)| == 3 + 4 * |drops|
    ensures SparseText(drops)[2 + 4 * k .. 6 + 4 * k] == SquareText(drops[k].0) + PieceCode(drops[k].1)
  {
    var tokens := DropTokens(drops);
    forall j | 0 <= j < |tokens| ensures |tokens[j]| == 4 {
      assert SingleDigit(drops[j].0);
    }
    ConcatUniformAt(tokens, 4, k);
    SliceOfMiddle("PI", Concat(tokens), "\n", 4 * k, 4 * k + 4);
  }

  // ------------------------------------------------------------ the renderer

  /** One line of a bulk board: the row number, then each cell in turn. */
  method RenderRow(i: nat, row: Row) returns (line: string)
    ensures line == RowLine(i, row)
  {
    ghost var cells := CellTexts(row);
    line := "P" + NatToString(i + 1);
    ghost var head := line;
    assert cells[..0] == [];
    var j := 0;
    while j < 9
      invariant 0 <= j <= 9
      invariant line == head + Concat(cells[..j])
    {
      var token;
      match row[j] {
        case Some((color, pt)) => token := ColorText(color) + PieceCode(pt);
        case None => token := " * ";
      }
      assert line + token == head + Concat(cells[..j + 1]) by {
        ConcatPrefix(cells, j);
        assert token == cells[j];
        AppendAssoc(head, Concat(cells[..j]), token);
      }
      line := line + token;
      j := j + 1;
    }
    assert cells[..9] == cells;
    line := line + "\n";
  }

  /** The nine lines of a bulk board, in order. */
  method RenderBulk(g: Grid) returns (out: string)
    ensures out == Concat(RowLines(g))
  {
    ghost var lines := RowLines(g);
    out := "";
    assert lines[..0] == [];
    var i := 0;
    while i < 9
      invariant 0 <= i <= 9
      invariant out == Concat(lines[..i])
    {
      var line := RenderRow(i, g[i]);
      assert out + line == Concat(lines[..i + 1]) by {
        ConcatPrefix(lines, i);
      }
      out := out + line;
      i := i + 1;
    }
    assert lines[..9] == lines;
  }

  /** The `PI` line with the listed pieces, in list order. */
  method RenderSparse(drops: seq<(Square, PieceType)>) returns (out: string)
    ensures out == SparseText(drops)
  {
    ghost var tokens := DropTokens(drops);
    out := "PI";
    assert tokens[..0] == [];
    var k := 0;
    while k < |drops|
      invariant 0 <= k <= |drops|
      invariant out == "PI" + Concat(tokens[..k])
    {
      var (sq, pt) := drops[k];
      var token := SquareText(sq) + PieceCode(pt);
      assert out + token == "PI" + Concat(tokens[..k + 1]) by {
        ConcatPrefix(tokens, k);
        assert token == tokens[k];
        AppendAssoc("PI", Concat(tokens[..k]), token);
      }
      out := out + token;
      k := k + 1;
    }
    assert tokens[..k] == tokens;
    out := out + "\n";
  }

  /** One `P` line per extra piece, in list order. */
  method RenderAddPieces(adds: seq<(Color, Square, PieceType)>) returns (out: string)
    ensures out == Concat(AddLines(adds))
  {
    ghost var lines := AddLines(adds);
    out := "";
    assert lines[..0] == [];
    var k := 0;
    while k < |adds|
      invariant 0 <= k <= |adds|
      invariant out == Concat(lines[..k])
    {
      var (color, sq, pt) := adds[k];
      var line := "P" + ColorText(color) + SquareText(sq) + PieceCode(pt) + "\n";
      assert out + line == Concat(lines[..k + 1]) by {
        ConcatPrefix(lines, k);
        assert line == lines[k];
      }
      out := out + line;
      k := k + 1;
    }
    assert lines[..k] == lines;
  }

  /** `Position::fmt`: the board block, the extra pieces, and the side to
      move. */
  method RenderPosition(p: Position) returns (out: string)
    ensures out == PositionText(p)
  {
    match p.bulk {
      case Some(g) => out := RenderBulk(g);
      case None => out := RenderSparse(p.dropPieces);
    }
    var adds := RenderAddPieces(p.addPieces);
    out := out + adds + ColorText(p.sideToMove) + "\n";
  }
}
