# CSA V2.2 game-record writer, modelled in Dafny

This project models the encoder of csa-rs (`src/value.rs`). The encoder
turns an in-memory shogi game record into the text of the CSA standard
file format, version 2.2. Each `Display` implementation of the source
becomes a function or method here:

- **Tokens** (`tokens.dfy`): the side (`+`/`-`), a square (file digits then
  rank digits), the two-letter piece codes, and an action (a move run
  together as side, origin, destination and piece, or `%` and a keyword).
- **Clock** (`clock.dfy`):
  - a date and optional time of day, as `Y/MM/DD` and ` H:MM:SS`;
  - a time control, as `HH:MM+SS`;
  - the `GameAttribute` wrapper.
- **Board** (`position.dfy`): the starting position.
  - It is either nine `P1`..`P9` lines of three-character cells, or one
    `PI` line listing pieces.
  - Then comes one `P` line per extra piece, then the side to move.
- **Record** (`record.dfy`): a move record is the action line plus an
  optional `T<seconds>` line. A game record is:
  - `V2.2`;
  - the metadata lines that are present, in a fixed order;
  - the position;
  - every move record.
- **Decimal** (`decimal.dfy`) models Rust's `{}` and width-2 zero-padded integer
  formatting. **Text** (`text.dfy`) holds sequence concatenation and
  line-count facts.

The source's `fmt` methods append to a formatter. Here the formatter is a
string accumulator:

- `GameRecord::fmt`, `Position::fmt` and `MoveRecord::fmt` are methods
  (`Render...`). The loops of `GameRecord::fmt` and `Position::fmt` carry
  invariants; `MoveRecord::fmt` makes one conditional append.
- Each of these methods is proved equal to a pure specification function
  (`...Text`).
- The properties of the output are lemmas about those functions.

Inverses and properties of the renderers:

- The source has no reader. Readers (`Parse...`) exist only on the
  specification side, as inverses.
- Round trips show what each rendering preserves: times, actions, board
  cells, and time limits up to whole minutes.
- Line-count lemmas show how many lines each block occupies.

`Duration` is whole seconds (`nat`), because only `as_secs` is used. The
`time` crate's date and time are plain fields. Rust's `u8` is the subset
type `Decimal.U8`.

## Model

| member | source | states |
|---|---|---|
| Tokens.DefaultColor | src/value.rs:152-156 | the default side is Black, written `+` |
| Tokens.ColorText | src/value.rs:158-165 | one character: `+` exactly for Black, `-` exactly for White |
| Tokens.ColorRoundTrip | src/value.rs:158-165 | the character reads back as the same side |
| Tokens.NewSquare | src/value.rs:175-179 | the square holds exactly the given file and rank, and renders as the file's digits then the rank's digits |
| Tokens.SquareText | src/value.rs:181-185 | only digits, at least two; exactly two iff file and rank are both below 10, and then those two digits in order |
| Tokens.PieceCode | src/value.rs:208-228 | every piece code is two upper-case letters |
| Tokens.PieceCodeParses | src/value.rs:208-228 | every code reads back as its own piece |
| Tokens.ParsedPieceCode | src/value.rs:208-228 | a string that reads as a piece is that piece's code |
| Tokens.PieceCodeRoundTrip | src/value.rs:208-228 | a string is a piece's code iff it reads as that piece |
| Tokens.PieceCodesDistinct | src/value.rs:208-228 | the fifteen codes are pairwise distinct |
| Tokens.Keyword | src/value.rs:302-314 | every terminal keyword has at least four characters, does not start with `%` and holds no newline |
| Tokens.ActionText | src/value.rs:296-317 | non-empty, one line; starts with `%` exactly for the non-move actions; a move is 7 characters iff both its squares are single-digit |
| Tokens.TerminalText | src/value.rs:302-314 | a terminal action is `%` followed by its keyword |
| Tokens.KeywordRoundTrip | src/value.rs:302-314 | every keyword, including `+`/`-ILLEGAL_ACTION`, reads back as its action |
| Tokens.MoveRoundTrip | src/value.rs:299-301 | a move with single-digit squares reads back as the same move |
| Tokens.ActionRoundTrip | src/value.rs:296-317 | every action whose squares are single-digit reads back from its text |
| Tokens.ActionTextInjective | src/value.rs:296-317 | two such actions render alike iff they are equal |
| Tokens.MultiDigitSquaresCollide | src/value.rs:299-301 | with a coordinate of 10 or more, two different moves render to the same `+11111FU` |
| Tokens.IllegalActionExamples | src/value.rs:382-389 | `%+ILLEGAL_ACTION` and `%-ILLEGAL_ACTION`, as the tests expect |
| Tokens.BlackPawnAdvance | src/value.rs:366-375 | Black 77 to 76 pawn renders as `+7776FU` |
| Decimal.NatToString | src/value.rs:183 | `{}` of an unsigned value: digits only, one digit iff below 10, no leading zero unless the value is 0 |
| Decimal.ValueOfNatToString | src/value.rs:183 | the digits spell the value back |
| Decimal.NatToStringInjective | src/value.rs:183 | distinct values give distinct digit strings |
| Decimal.IntToString | src/value.rs:82-83 | `{}` of the signed year: a leading `-` iff negative, digits otherwise, and no leading zero (after the sign) unless the value is 0 |
| Decimal.Pad2 | src/value.rs:82-85 | width-2 zero-padded: at least two digits, exactly two below 100, no added zero from 10 up (the plain digits), and the digits spell the value (never cut short) |
| Clock.DateText | src/value.rs:80-86 | one line; for any year, with month and day below 100, the text is the signed year, then `/` and two digits, then `/` and two digits (length and both `/` positions fixed) |
| Clock.ClockText | src/value.rs:87-95 | starts with a space, one line; with minute and second below 100 the two `:` sit 3 and 6 from the end, so both are two digits, and the unpadded hour makes it 8 characters exactly when the hour is one digit |
| Clock.TimeText | src/value.rs:78-99 | the date is a prefix; what follows it is exactly the time of day's text when there is one, and nothing otherwise |
| Clock.ClockRoundTrip | src/value.rs:87-95 | the time of day reads back from its text |
| Clock.DateRoundTrip | src/value.rs:80-86 | a date followed by any non-digit reads back, with what follows it |
| Clock.TimeRoundTrip | src/value.rs:78-99 | every time, for any year and with or without a time of day, reads back from its text |
| Clock.TimeTextInjective | src/value.rs:78-99 | two times render alike iff they are equal |
| Clock.ExampleDate | src/value.rs:441 | 3 May 2003 renders as `2003/05/03` |
| Clock.StartTimeExample | src/value.rs:441 | the tests' start time renders as `2003/05/03 10:30:00` |
| Clock.EndTimeExample | src/value.rs:442 | the tests' end time renders as `2003/05/03 11:11:05` |
| Clock.UnpaddedHourExample | src/value.rs:87-95 | a single-digit hour is not padded: `2003/05/03 9:05:07` |
| Clock.HoursMinutesSplit | src/value.rs:111-113 | minutes are below 60; hours and minutes together are the main time rounded down to whole minutes |
| Clock.TimeLimitText | src/value.rs:109-123 | one line of at least 8 characters: the padded hours spelling `secs / 3600`, `:`, two digits spelling `(secs % 3600) / 60`, `+`, then the padded byoyomi (so `01:00+00` for 3600 s, `100:00+00` for 360000 s, `00:00+100` for 100 s byoyomi); exactly 8 characters below 100 hours and 100 s of byoyomi |
| Clock.TimeLimitRoundTrip | src/value.rs:109-123 | reads back as the same byoyomi and the main time rounded down to whole minutes |
| Clock.TimeLimitTextEqual | src/value.rs:109-123 | two limits render alike iff their main times agree in whole minutes and their byoyomi agree |
| Clock.TimeLimitExample | src/value.rs:443 | 1500 s main time and no byoyomi render as `00:25+00` |
| Clock.AttributeText | src/value.rs:134-142 | each variant is written as its payload renders: a time as its time text (which reads back as the time), a limit as its limit text (which reads back as the minute-rounded limit), and a string unchanged |
| Board.DefaultPosition | src/value.rs:235-241 | the default position renders as `PI`, then `+` |
| Board.CellText | src/value.rs:249-254 | each cell token is three characters with no newline; ` * ` exactly for an empty cell |
| Board.CellRoundTrip | src/value.rs:249-254 | each cell token reads back as the cell |
| Board.BulkIgnoresDrops | src/value.rs:245-264 | with a bulk board the listed drop pieces do not change the text |
| Board.RowLineIsOneLine | src/value.rs:247-256 | a board row is exactly one line |
| Board.AddLineIsOneLine | src/value.rs:266-268 | each extra-piece entry is exactly one line |
| Board.SparseTextIsOneLine | src/value.rs:258-264 | the `PI` block is exactly one line |
| Board.PrimaryLineCount | src/value.rs:245-264 | the board block has nine lines with a bulk board and one without |
| Board.AddLinesCount | src/value.rs:266-268 | one line per extra piece |
| Board.PositionLineCount | src/value.rs:243-274 | board block lines, plus one per extra piece, plus the side-to-move line |
| Board.PositionEndsWithSide | src/value.rs:270 | the last line is the side to move |
| Board.RowLineLayout | src/value.rs:247-256 | a row line is 30 characters: `P`, the row digit, cell `k` at columns 2+3k..5+3k, a newline |
| Board.BulkLayout | src/value.rs:245-257 | a bulk board is 270 characters; line `i` is at 30i and starts `P<i+1>`; each cell reads back from its place |
| Board.SparseLayout | src/value.rs:258-264 | with single-digit squares each listed piece is four characters at 2+4k, in list order |
| Board.RenderRow | src/value.rs:247-256 | the loop over a row's cells writes exactly the row's line |
| Board.RenderBulk | src/value.rs:245-257 | the loop over the rows writes the nine lines in order |
| Board.RenderSparse | src/value.rs:258-264 | `PI`, the drops in list order, and a newline |
| Board.RenderAddPieces | src/value.rs:266-268 | one `P` line per extra piece, in list order |
| Board.RenderPosition | src/value.rs:243-274 | `Position::fmt` writes exactly the position's text |
| Record.RenderMoveRecord | src/value.rs:327-337 | `MoveRecord::fmt` writes exactly the move record's text |
| Record.MoveRecordShape | src/value.rs:327-337 | the action line comes first; a `T` line follows iff a time is given, holding the unpadded seconds, which read back; the text always ends a line |
| Record.MoveRecordLineCount | src/value.rs:327-337 | one line, or two when timed |
| Record.MoveRecordExamples | src/value.rs:447-449 | the tests' records render as `+8786FU`, `T5` and as `%TORYO` |
| Record.TimeValue | src/value.rs:29-33 | a time value is present iff the field is; it is exactly the field's time text, one line, and reads back as the field's time |
| Record.TimeLimitValue | src/value.rs:34-37 | a limit value is present iff the field is; it is exactly the field's limit text, one line of at least 8 characters, and reads back as the limit rounded down to whole minutes |
| Record.RenderMetadata | src/value.rs:24-44 | the metadata loop writes exactly the present entries' lines in table order |
| Record.RenderMoves | src/value.rs:50-52 | the move loop writes every record in list order |
| Record.RenderGameRecord | src/value.rs:19-56 | `GameRecord::fmt` writes exactly the record's text |
| Record.MetadataInFixedOrder | src/value.rs:24-44 | the metadata is one optional line per field, in the order N+, N-, $EVENT:, $SITE:, $START_TIME:, $END_TIME:, $TIME_LIMIT:, $OPENING: |
| Record.MetadataLineCount | src/value.rs:40-44 | with single-line fields, each present field gives exactly one line and each absent one none |
| Record.NoMetadata | src/value.rs:40-44 | with every field absent only the version line, the position and the moves remain |
| Record.AppendMove | src/value.rs:50-52 | appending a move appends exactly its text |
| Record.MoveLinesCount | src/value.rs:50-52 | the moves take one line each plus one per timed move |
| Record.GameRecordLineCount | src/value.rs:19-56 | total lines: 1 + present fields + position lines + move lines |
| Record.StartsWithVersion | src/value.rs:21 | every record starts with `V2.2` and a newline |
| Record.ExampleMetadata | src/value.rs:436-444 | the tests' record gives the eight expected metadata lines |
| Record.ExampleMoves | src/value.rs:447-449 | the tests' moves give `+8786FU`, `T5`, `%TORYO` |
| Record.GameRecordExample | src/value.rs:400-453 | the tests' record renders to the expected text, line by line |

## Left out

- `Time::now` (src/value.rs:68-75) reads the system clock. The model has no clock.
- The `time` crate and `std::time::Duration` are not part of this model.
  - A date and a time of day are their fields, as the accessor methods return them.
  - Calendar validity (month 1-12, day of month, hour below 24) is not checked.
  - A duration is its whole seconds, as `as_secs` gives them.
- Clock.DateText: the year is an unbounded `int`, so `i32` limits are not modelled. The rendering is the same for every `i32` year.
- The `fmt::Result` errors and their `?` propagation are not modelled. Each write is taken to succeed.
- The derived `Debug`, `PartialEq`, `Eq`, `Clone` and `Default` impls are not modelled. The exceptions are `Color::default` and the default `Position`.
- Rust `String`s are sequences of characters. UTF-8 byte layout is not modelled.
- The `.to_string()` of the metadata's `String` fields is the identity and is written as such.
- Free-text fields (players, event, site, opening) may contain newlines; the source never checks this.
  - Record.MetadataLineCount and Record.GameRecordLineCount therefore require it as a precondition (`SingleLineFields`).
- Tokens.ActionText does not state the exact text of a move in its own contract. For single-digit squares it is pinned by the length clause and Tokens.MoveRoundTrip; with a file or rank of 10 or more only the layout facts of its contract hold (the text is then ambiguous, see Tokens.MultiDigitSquaresCollide).
- Tokens.ActionRoundTrip needs single-digit squares. With two-digit files or ranks a move's text is ambiguous (Tokens.MultiDigitSquaresCollide), because the source writes coordinates with no separator.
- Tokens.IllegalActionExamples restates only the illegal-action strings of the action test (src/value.rs:377-396). The other expected keywords are covered by Tokens.KeywordRoundTrip and Record.MoveRecordExamples (`%TORYO`).
- Reading CSA text and shogi legality rules are not modelled: neither exists in the modelled code. The `Parse...` functions here exist only to state round trips.
