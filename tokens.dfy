/**
 * The leaf tokens of a CSA V2.2 record: the side (`Color`), a board square,
 * the piece kind and one action of the move list.  Each renderer is paired
 * with a reader that inverts it, so that each rendering is shown to lose
 * nothing.
 */
module Tokens {
  import opened Wrappers
  import opened Decimal
  import opened Text

  // ---------------------------------------------------------------- Color

  datatype Color = Black | White

  /** `Color::default`: the side to move when nothing else is said. */
  function DefaultColor(): (c: Color)
    ensures ColorText(c) == "+"
  {
    Black
  }

  /** Black is `+`, White is `-`. */
  function ColorText(c: Color): (s: string)
    ensures |s| == 1
    ensures s == "+" <==> c == Black
    ensures s == "-" <==> c == White
  {
    match c
    case Black => "+"
    case White => "-"
  }

  function ParseColor(ch: char): Option<Color>
  {
    if ch == '+' then Some(Black) else if ch == '-' then Some(White) else None
  }

  lemma ColorRoundTrip(c: Color)
    ensures ParseColor(ColorText(c)[0]) == Some(c)
  {
  }

  // --------------------------------------------------------------- Square

  datatype Square = Square(file: U8, rank: U8)

  /** `Square::new`. */
  function NewSquare(file: U8, rank: U8): (sq: Square)
    ensures sq.file == file && sq.rank == rank
    ensures SquareText(sq) == NatToString(file) + NatToString(rank)
  {
    Square(file, rank)
  }

  /** File and rank each fit in one digit, as on a 9x9 board. */
  predicate SingleDigit(sq: Square)
  {
    sq.file < 10 && sq.rank < 10
  }

  /** The file's digits then the rank's digits, with no separator. */
  function SquareText(sq: Square): (s: string)
    ensures AllDigits(s) && 2 <= |s|
    ensures SingleDigit(sq) <==> |s| == 2
    ensures SingleDigit(sq) ==> s == [DigitChar(sq.file), DigitChar(sq.rank)]
  {
    NatToString(sq.file) + NatToString(sq.rank)
  }

  // ------------------------------------------------------------ PieceType

  datatype PieceType =
    | Pawn | Lance | Knight | Silver | Gold | Bishop | Rook | King
    | ProPawn | ProLance | ProKnight | ProSilver | Horse | Dragon | All

  predicate IsUpper(c: char)
  {
    'A' <= c <= 'Z'
  }

  /** The two-letter CSA code of each piece kind. */
  function PieceCode(pt: PieceType): (s: string)
    ensures |s| == 2 && IsUpper(s[0]) && IsUpper(s[1])
  {
    match pt
    case Pawn => "FU"
    case Lance => "KY"
    case Knight => "KE"
    case Silver => "GI"
    case Gold => "KI"
    case Bishop => "KA"
    case Rook => "HI"
    case King => "OU"
    case ProPawn => "TO"
    case ProLance => "NY"
    case ProKnight => "NK"
    case ProSilver => "NG"
    case Horse => "UM"
    case Dragon => "RY"
    case All => "AL"
  }

  function ParsePiece(s: string): Option<PieceType>
  {
    if s == "FU" then Some(Pawn)
    else if s == "KY" then Some(Lance)
    else if s == "KE" then Some(Knight)
    else if s == "GI" then Some(Silver)
    else if s == "KI" then Some(Gold)
    else if s == "KA" then Some(Bishop)
    else if s == "HI" then Some(Rook)
    else if s == "OU" then Some(King)
    else if s == "TO" then Some(ProPawn)
    else if s == "NY" then Some(ProLance)
    else if s == "NK" then Some(ProKnight)
    else if s == "NG" then Some(ProSilver)
    else if s == "UM" then Some(Horse)
    else if s == "RY" then Some(Dragon)
    else if s == "AL" then Some(All)
    else None
  }

  /** Every code reads back as its piece. */
  lemma PieceCodeParses(pt: PieceType)
    ensures ParsePiece(PieceCode(pt)) == Some(pt)
  {
    match pt
    case Pawn =>
    case Lance =>
    case Knight =>
    case Silver =>
    case Gold =>
    case Bishop =>
    case Rook =>
    case King =>
    case ProPawn =>
    case ProLance =>
    case ProKnight =>
    case ProSilver =>
    case Horse =>
    case Dragon =>
    case All =>
  }

  /** Only codes read as pieces. */
  lemma ParsedPieceCode(s: string)
    requires ParsePiece(s).Some?
    ensures PieceCode(ParsePiece(s).value) == s
  {
  }

  /** A string reads as a piece exactly when it is that piece's code: the
      fifteen codes are pairwise distinct. */
  lemma PieceCodeRoundTrip(pt: PieceType, s: string)
    ensures PieceCode(pt) == s <==> ParsePiece(s) == Some(pt)
  {
    PieceCodeParses(pt);
    if ParsePiece(s).Some? {
      ParsedPieceCode(s);
    }
  }

  lemma PieceCodesDistinct(a: PieceType, b: PieceType)
    ensures PieceCode(a) == PieceCode(b) <==> a == b
  {
    PieceCodeRoundTrip(a, PieceCode(b));
  }

  // --------------------------------------------------------------- Action

  datatype Action =
    | Move(mover: Color, from: Square, to: Square, piece: PieceType)
    | Toryo | Chudan | Sennichite | TimeUp | IllegalMove
    | IllegalAction(offender: Color)
    | Jishogi | Kachi | Hikiwake | Matta | Tsumi | Fuzumi | Error

  /** The keyword after `%` of every action that is not a move. */
  function Keyword(a: Action): (s: string)
    requires !a.Move?
    ensures 4 <= |s| && s[0] != '%' && NoNewline(s)
  {
    match a
    case Toryo => "TORYO"
    case Chudan => "CHUDAN"
    case Sennichite => "SENNICHITE"
    case TimeUp => "TIME_UP"
    case IllegalMove => "ILLEGAL_MOVE"
    case IllegalAction(c) => ColorText(c) + "ILLEGAL_ACTION"
    case Jishogi => "JISHOGI"
    case Kachi => "KACHI"
    case Hikiwake => "HIKIWAKE"
    case Matta => "MATTA"
    case Tsumi => "TSUMI"
    case Fuzumi => "FUZUMI"
    case Error => "ERROR"
  }

  /** A move is mover, origin, destination and piece, run together; every
      other action is `%` and its keyword. */
  function ActionText(a: Action): (s: string)
    ensures 1 <= |s| && NoNewline(s)
    ensures s[0] == '%' <==> !a.Move?
    ensures a.Move? ==> (|s| == 7 <==> SingleDigit(a.from) && SingleDigit(a.to))
  {
    if a.Move? then
      var c, f, t, p := ColorText(a.mover), SquareText(a.from), SquareText(a.to), PieceCode(a.piece);
      DigitsOnOneLine(f);
      DigitsOnOneLine(t);
      assert p == [p[0], p[1]];
      NoNewlineAppend3(c, f, t);
      c + f + t + p
    else
      "%" + Keyword(a)
  }

  /** Both squares of a move are single-digit, so its text has a fixed layout. */
  predicate Readable(a: Action)
  {
    a.Move? ==> SingleDigit(a.from) && SingleDigit(a.to)
  }

  function ParseKeyword(k: string): Option<Action>
  {
    if k == "TORYO" then Some(Toryo)
    else if k == "CHUDAN" then Some(Chudan)
    else if k == "SENNICHITE" then Some(Sennichite)
    else if k == "TIME_UP" then Some(TimeUp)
    else if k == "ILLEGAL_MOVE" then Some(IllegalMove)
    else if k == "JISHOGI" then Some(Jishogi)
    else if k == "KACHI" then Some(Kachi)
    else if k == "HIKIWAKE" then Some(Hikiwake)
    else if k == "MATTA" then Some(Matta)
    else if k == "TSUMI" then Some(Tsumi)
    else if k == "FUZUMI" then Some(Fuzumi)
    else if k == "ERROR" then Some(Error)
    else if |k| == 15 && k[1..] == "ILLEGAL_ACTION" && ParseColor(k[0]).Some? then
      Some(IllegalAction(ParseColor(k[0]).value))
    else None
  }

  function ParseAction(s: string): Option<Action>
  {
    if |s| >= 1 && s[0] == '%' then ParseKeyword(s[1..])
    else if |s| == 7 && ParseColor(s[0]).Some? && AllDigits(s[1..5]) && ParsePiece(s[5..]).Some? then
      Some(Move(ParseColor(s[0]).value,
                Square(DigitValue(s[1]), DigitValue(s[2])),
                Square(DigitValue(s[3]), DigitValue(s[4])),
                ParsePiece(s[5..]).value))
    else None
  }

  lemma KeywordRoundTrip(a: Action)
    requires !a.Move?
    ensures ParseKeyword(Keyword(a)) == Some(a)
  {
    if a.IllegalAction? {
      assert Keyword(a)[1..] == "ILLEGAL_ACTION";
    }
  }

  lemma MoveRoundTrip(a: Action)
    requires a.Move? && Readable(a)
    ensures ParseAction(ActionText(a)) == Some(a)
  {
    var s := ActionText(a);
    var c, f, t, p := ColorText(a.mover), SquareText(a.from), SquareText(a.to), PieceCode(a.piece);
    assert s == c + f + t + p;
    assert s[5..] == p;
    PieceCodeParses(a.piece);
    assert s[1..5] == f + t;
    assert s[1] == DigitChar(a.from.file) && s[2] == DigitChar(a.from.rank);
    assert s[3] == DigitChar(a.to.file) && s[4] == DigitChar(a.to.rank);
    ColorRoundTrip(a.mover);
  }

  /** The text of an action with single-digit squares reads back as that action. */
  lemma ActionRoundTrip(a: Action)
    requires Readable(a)
    ensures ParseAction(ActionText(a)) == Some(a)
  {
    if a.Move? {
      MoveRoundTrip(a);
    } else {
      var s := ActionText(a);
      assert s[1..] == Keyword(a);
      KeywordRoundTrip(a);
    }
  }

  /** Actions with single-digit squares render to distinct texts. */
  lemma ActionTextInjective(a: Action, b: Action)
    requires Readable(a) && Readable(b)
    ensures ActionText(a) == ActionText(b) <==> a == b
  {
    ActionRoundTrip(a);
    ActionRoundTrip(b);
  }

  /** Without single-digit squares a move text no longer determines the move:
      11 -> 11 1 and 1 11 -> 11 render alike. */
  lemma MultiDigitSquaresCollide()
    ensures ActionText(Move(Black, Square(1, 11), Square(1, 1), Pawn))
         == ActionText(Move(Black, Square(11, 1), Square(1, 1), Pawn))
         == "+11111FU"
  {
    assert NatToString(11) == "11";
  }

  /** A terminal action is `%` and its keyword. */
  lemma TerminalText(a: Action)
    requires !a.Move?
    ensures ActionText(a) == "%" + Keyword(a)
  {
  }

  /** The illegal-action examples of the source's tests: the offending side
      sits between `%` and the keyword. */
  lemma IllegalActionExamples()
    ensures ActionText(IllegalAction(Black)) == "%+ILLEGAL_ACTION"
    ensures ActionText(IllegalAction(White)) == "%-ILLEGAL_ACTION"
  {
    TerminalText(IllegalAction(Black));
    assert Keyword(IllegalAction(Black)) == "+" + "ILLEGAL_ACTION";
    assert "%" + ("+" + "ILLEGAL_ACTION") == "%+ILLEGAL_ACTION";
    TerminalText(IllegalAction(White));
    assert Keyword(IllegalAction(White)) == "-" + "ILLEGAL_ACTION";
    assert "%" + ("-" + "ILLEGAL_ACTION") == "%-ILLEGAL_ACTION";
  }

  /** The example move from the source's tests. */
  lemma BlackPawnAdvance()
    ensures ActionText(Move(Black, NewSquare(7, 7), NewSquare(7, 6), Pawn)) == "+7776FU"
  {
  }
}
