/**
 * A whole CSA V2.2 game record: the version line, the metadata lines that are
 * present, the starting position and the move list.
 */
module Record {
  import opened Wrappers
  import opened Decimal
  import opened Text
  import opened Tokens
  import opened Clock
  import opened Board

  // ----------------------------------------------------------- MoveRecord

  /** One entry of the move list: the action and, if known, the seconds it took. */
  datatype MoveRecord = MoveRecord(action: Action, time: Option<nat>)

  /** The `T` line of a timed move. */
  function TimeLine(time: Option<nat>): string
  {
    match time
    case Some(secs) => "T" + NatToString(secs) + "\n"
    case None => ""
  }

  /** The action line, then the `T` line only when a time is given. */
  function MoveRecordText(m: MoveRecord): string
  {
    ActionText(m.action) + "\n" + TimeLine(m.time)
  }

  /** `MoveRecord::fmt`. */
  method RenderMoveRecord(m: MoveRecord) returns (out: string)
    ensures out == MoveRecordText(m)
  {
    out := ActionText(m.action) + "\n";
    if m.time.Some? {
      var line := "T" + NatToString(m.time.value) + "\n";
      assert line == TimeLine(m.time);
      out := out + line;
    } else {
      assert TimeLine(m.time) == "";
      assert out + TimeLine(m.time) == out;
    }
  }

  /** `s` is the line `a`, then a `T` line exactly when `time` is given,
      holding the seconds unpadded, from which they read back; it always
      ends a line. */
  predicate RecordShaped(s: string, a: string, time: Option<nat>)
  {
    && |a| < |s| && s[..|a| + 1] == a + "\n"
    && s[|s| - 1] == '\n'
    && (|s| == |a| + 1 <==> time.None?)
    && (time.Some? ==> s[|a| + 1] == 'T' && s[|a| + 2..] == NatToString(time.value) + "\n"
                       && TakeNat(s[|a| + 2..]) == (true, time.value, "\n"))
  }

  /** A move record is its action line, then a `T` line exactly when it is
      timed, from which the seconds read back; it always ends a line. */
  lemma MoveRecordShape(m: MoveRecord)
    ensures RecordShaped(MoveRecordText(m), ActionText(m.action), m.time)
  {
    LinesShape(ActionText(m.action), m.time);
  }

  lemma LinesShape(a: string, time: Option<nat>)
    ensures RecordShaped(a + "\n" + TimeLine(time), a, time)
  {
    if time.Some? {
      LineThenTimeLine(a, NatToString(time.value));
      TakeNatOf(time.value, "\n");
    } else {
      LineThenNothing(a);
    }
  }

  /** Proof step: where the parts of a timed move record sit. */
  lemma LineThenTimeLine(a: string, d: string)
    ensures var s := a + "\n" + ("T" + d + "\n");
      && s[..|a| + 1] == a + "\n" && s[|a| + 1] == 'T' && s[|a| + 2..] == d + "\n"
      && s[|s| - 1] == '\n' && |s| == |a| + |d| + 3
  {
  }

  /** Proof step: where the parts of an untimed move record sit. */
  lemma LineThenNothing(a: string)
    ensures var s := a + "\n" + "";
      && s[..|a| + 1] == a + "\n" && s[|s| - 1] == '\n' && |s| == |a| + 1
  {
  }

  /** One line, or two when the move is timed. */
  lemma MoveRecordLineCount(m: MoveRecord)
    ensures Count(MoveRecordText(m), '\n') == if m.time.Some? then 2 else 1
  {
    OneLine(ActionText(m.action));
    CountAppend(ActionText(m.action) + "\n", TimeLine(m.time), '\n');
    if m.time.Some? {
      NoNewlineAppend("T", NatToString(m.time.value));
      OneLine("T" + NatToString(m.time.value));
    }
  }

  /** The two move records of the source's test. */
  lemma MoveRecordExamples()
    ensures MoveRecordText(MoveRecord(Move(Black, NewSquare(8, 7), NewSquare(8, 6), Pawn), Some(5)))
            == "+8786FU\nT5\n"
    ensures MoveRecordText(MoveRecord(Toryo, None)) == "%TORYO\n"
  {
  }

  // ----------------------------------------------------------- GameRecord

  datatype GameRecord = GameRecord(
    blackPlayer: Option<string>,
    whitePlayer: Option<string>,
    event: Option<string>,
    site: Option<string>,
    startTime: Option<Time>,
    endTime: Option<Time>,
    timeLimit: Option<TimeLimit>,
    opening: Option<string>,
    startPos: Position,
    moves: seq<MoveRecord>)

  /** `start_time.as_ref().map(|x| x.to_string())`, and likewise below. */
  function TimeValue(t: Option<Time>): (r: Option<string>)
    ensures r.Some? <==> t.Some?
    ensures r.Some? ==> NoNewline(r.value) && ParseTime(r.value) == Some(t.value)
    ensures r.Some? ==> r.value == TimeText(t.value)
  {
    match t
    case Some(t) => TimeRoundTrip(t); Some(TimeText(t))
    case None => None
  }

  function TimeLimitValue(tl: Option<TimeLimit>): (r: Option<string>)
    ensures r.Some? <==> tl.Some?
    ensures r.Some? ==> NoNewline(r.value) && 8 <= |r.value|
    ensures r.Some? ==>
              ParseTimeLimit(r.value) == Some(TimeLimit(tl.value.mainTime / 60 * 60, tl.value.byoyomi))
    ensures r.Some? ==> r.value == TimeLimitText(tl.value)
  {
    match tl
    case Some(tl) => TimeLimitRoundTrip(tl); Some(TimeLimitText(tl))
    case None => None
  }

  /** The labelled metadata values, in the fixed order they are written. */
  function Metadata(g: GameRecord): seq<(string, Option<string>)>
  {
    [ ("N+", g.blackPlayer),
      ("N-", g.whitePlayer),
      ("$EVENT:", g.event),
      ("$SITE:", g.site),
      ("$START_TIME:", TimeValue(g.startTime)),
      ("$END_TIME:", TimeValue(g.endTime)),
      ("$TIME_LIMIT:", TimeLimitValue(g.timeLimit)),
      ("$OPENING:", g.opening) ]
  }

  /** One entry of the metadata table as a line (see `OptLine`). */
  function MetaLine(entry: (string, Option<string>)): string
  {
    OptLine(entry.0, entry.1)
  }

  function EntryLines(entries: seq<(string, Option<string>)>): seq<string>
  {
    seq(|entries|, i requires 0 <= i < |entries| => MetaLine(entries[i]))
  }

  function MetaLines(g: GameRecord): seq<string>
  {
    EntryLines(Metadata(g))
  }

  function MoveLines(moves: seq<MoveRecord>): seq<string>
  {
    seq(|moves|, k requires 0 <= k < |moves| => MoveRecordText(moves[k]))
  }

  function GameRecordText(g: GameRecord): string
  {
    "V2.2\n" + Concat(MetaLines(g)) + PositionText(g.startPos) + Concat(MoveLines(g.moves))
  }

  /** The metadata loop of `GameRecord::fmt`: one line for each present
      value of the table, in table order. */
  method RenderMetadata(g: GameRecord) returns (out: string)
    ensures out == Concat(MetaLines(g))
  {
    var metadata := Metadata(g);
    ghost var metaLines := MetaLines(g);
    out := "";
    assert metaLines[..0] == [];
    var i := 0;
    while i < |metadata|
      invariant 0 <= i <= 8
      invariant out == Concat(metaLines[..i])
    {
      ConcatPrefix(metaLines, i);
      var (key, value) := metadata[i];
      if value.Some? {
        var line := key + value.value + "\n";
        assert line == metaLines[i];
        out := out + line;
      } else {
        assert metaLines[i] == "";
        assert out + metaLines[i] == out;
      }
      i := i + 1;
    }
    assert metaLines[..8] == metaLines;
  }

  /** The move loop of `GameRecord::fmt`: each record in list order. */
  method RenderMoves(moves: seq<MoveRecord>) returns (out: string)
    ensures out == Concat(MoveLines(moves))
  {
    ghost var moveLines := MoveLines(moves);
    out := "";
    assert moveLines[..0] == [];
    var k := 0;
    while k < |moves|
      invariant 0 <= k <= |moves|
      invariant out == Concat(moveLines[..k])
    {
      var record := RenderMoveRecord(moves[k]);
      assert out + record == Concat(moveLines[..k + 1]) by {
        ConcatPrefix(moveLines, k);
      }
      out := out + record;
      k := k + 1;
    }
    assert moveLines[..k] == moveLines;
  }

  /** `GameRecord::fmt`: the version line, the present metadata, the
      position, and the move records. */
  method RenderGameRecord(g: GameRecord) returns (out: string)
    ensures out == GameRecordText(g)
  {
    out := "V2.2\n";
    var metadata := RenderMetadata(g);
    out := out + metadata;
    var position := RenderPosition(g.startPos);
    out := out + position;
    var moves := RenderMoves(g.moves);
    out := out + moves;
  }

  // ------------------------------------------------- what the text promises

  /** The metadata loop writes the same as one conditional line per field,
      in the order N+, N-, $EVENT:, $SITE:, $START_TIME:, $END_TIME:,
      $TIME_LIMIT:, $OPENING:. */
  lemma MetadataInFixedOrder(g: GameRecord)
    ensures Concat(MetaLines(g))
         == OptLine("N+", g.blackPlayer)
          + OptLine("N-", g.whitePlayer)
          + OptLine("$EVENT:", g.event)
          + OptLine("$SITE:", g.site)
          + OptLine("$START_TIME:", TimeValue(g.startTime))
          + OptLine("$END_TIME:", TimeValue(g.endTime))
          + OptLine("$TIME_LIMIT:", TimeLimitValue(g.timeLimit))
          + OptLine("$OPENING:", g.opening)
  {
    var lines := MetaLines(g);
    var md := Metadata(g);
    Concat8(lines);
    assert lines[0] == MetaLine(md[0]) == OptLine("N+", g.blackPlayer);
    assert lines[1] == MetaLine(md[1]) == OptLine("N-", g.whitePlayer);
    assert lines[2] == MetaLine(md[2]) == OptLine("$EVENT:", g.event);
    assert lines[3] == MetaLine(md[3]) == OptLine("$SITE:", g.site);
    assert lines[4] == MetaLine(md[4]) == OptLine("$START_TIME:", TimeValue(g.startTime));
    assert lines[5] == MetaLine(md[5]) == OptLine("$END_TIME:", TimeValue(g.endTime));
    assert lines[6] == MetaLine(md[6]) == OptLine("$TIME_LIMIT:", TimeLimitValue(g.timeLimit));
    assert lines[7] == MetaLine(md[7]) == OptLine("$OPENING:", g.opening);
  }

  /** A present value is one line, label then value; an absent one is
      nothing. */
  function OptLine(key: string, value: Option<string>): string
  {
    if value.Some? then key + value.value + "\n" else ""
  }

  /** One for a present value, zero for an absent one. */
  function Flag<T>(o: Option<T>): nat
  {
    if o.Some? then 1 else 0
  }

  /** The number of metadata fields that are present. */
  function PresentCount(g: GameRecord): nat
  {
    Flag(g.blackPlayer) + Flag(g.whitePlayer) + Flag(g.event) + Flag(g.site)
    + Flag(g.startTime) + Flag(g.endTime) + Flag(g.timeLimit) + Flag(g.opening)
  }

  /** The free-text fields hold no line terminator (nothing checks this). */
  predicate SingleLineFields(g: GameRecord)
  {
    && (g.blackPlayer.Some? ==> NoNewline(g.blackPlayer.value))
    && (g.whitePlayer.Some? ==> NoNewline(g.whitePlayer.value))
    && (g.event.Some? ==> NoNewline(g.event.value))
    && (g.site.Some? ==> NoNewline(g.site.value))
    && (g.opening.Some? ==> NoNewline(g.opening.value))
  }

  lemma OptLineCount(key: string, value: Option<string>)
    requires NoNewline(key)
    requires value.Some? ==> NoNewline(value.value)
    ensures Count(OptLine(key, value), '\n') == if value.Some? then 1 else 0
  {
    if value.Some? {
      NoNewlineAppend(key, value.value);
      OneLine(key + value.value);
    }
  }

  /** Number of table entries that hold a value; PresentMetadata ties it to
      the per-field count `PresentCount`. */
  function Present(entries: seq<(string, Option<string>)>): nat
  {
    if entries == [] then 0
    else Present(entries[..|entries| - 1]) + Flag(entries[|entries| - 1].1)
  }

  lemma {:induction false} EntryLinesCount(entries: seq<(string, Option<string>)>)
    requires forall i :: 0 <= i < |entries| ==>
               NoNewline(entries[i].0) && (entries[i].1.Some? ==> NoNewline(entries[i].1.value))
    ensures Count(Concat(EntryLines(entries)), '\n') == Present(entries)
    decreases |entries|
  {
    if entries != [] {
      var n := |entries| - 1;
      var e := entries[n];
      assert EntryLines(entries) == EntryLines(entries[..n]) + [MetaLine(e)];
      ConcatSnoc(EntryLines(entries[..n]), MetaLine(e));
      EntryLinesCount(entries[..n]);
      OptLineCount(e.0, e.1);
      assert MetaLine(e) == OptLine(e.0, e.1);
      CountAppend(Concat(EntryLines(entries[..n])), MetaLine(e), '\n');
    } else {
      assert EntryLines(entries) == [];
    }
  }

  lemma PresentPrefix(entries: seq<(string, Option<string>)>, k: nat)
    requires k < |entries|
    ensures Present(entries[..k + 1]) == Present(entries[..k]) + Flag(entries[k].1)
  {
    assert entries[..k + 1][..k] == entries[..k];
  }

  lemma Present8(es: seq<(string, Option<string>)>)
    requires |es| == 8
    ensures Present(es) == Flag(es[0].1) + Flag(es[1].1) + Flag(es[2].1) + Flag(es[3].1)
                         + Flag(es[4].1) + Flag(es[5].1) + Flag(es[6].1) + Flag(es[7].1)
  {
    assert es[..0] == [];
    PresentPrefix(es, 0);
    PresentPrefix(es, 1);
    PresentPrefix(es, 2);
    PresentPrefix(es, 3);
    PresentPrefix(es, 4);
    PresentPrefix(es, 5);
    PresentPrefix(es, 6);
    PresentPrefix(es, 7);
    assert es[..8] == es;
  }

  lemma PresentMetadata(g: GameRecord)
    ensures Present(Metadata(g)) == PresentCount(g)
  {
    var md := Metadata(g);
    Present8(md);
    assert Flag(md[4].1) == Flag(g.startTime);
    assert Flag(md[5].1) == Flag(g.endTime);
    assert Flag(md[6].1) == Flag(g.timeLimit);
  }

  /** Each present field gives exactly one line and each absent field none. */
  lemma MetadataLineCount(g: GameRecord)
    requires SingleLineFields(g)
    ensures Count(Concat(MetaLines(g)), '\n') == PresentCount(g)
  {
    var md := Metadata(g);
    forall i | 0 <= i < 8
      ensures NoNewline(md[i].0) && (md[i].1.Some? ==> NoNewline(md[i].1.value))
    {
    }
    EntryLinesCount(md);
    PresentMetadata(g);
  }

  /** With no metadata only the version line, the position and the moves
      remain. */
  lemma NoMetadata(g: GameRecord)
    requires g.blackPlayer.None? && g.whitePlayer.None? && g.event.None? && g.site.None?
    requires g.startTime.None? && g.endTime.None? && g.timeLimit.None? && g.opening.None?
    ensures GameRecordText(g) == "V2.2\n" + PositionText(g.startPos) + Concat(MoveLines(g.moves))
  {
    MetadataInFixedOrder(g);
    assert Concat(MetaLines(g)) == "";
    assert "V2.2\n" + "" == "V2.2\n";
  }

  /** Appending a move to the list appends exactly its text: the moves are
      written one after another, in list order. */
  lemma AppendMove(g: GameRecord, m: MoveRecord)
    ensures GameRecordText(g.(moves := g.moves + [m])) == GameRecordText(g) + MoveRecordText(m)
  {
    var head := "V2.2\n" + Concat(MetaLines(g)) + PositionText(g.startPos);
    MoveLinesSnoc(g.moves, m);
    ConcatSnoc(MoveLines(g.moves), MoveRecordText(m));
    assert GameRecordText(g.(moves := g.moves + [m]))
        == head + (Concat(MoveLines(g.moves)) + MoveRecordText(m));
    AppendAssoc(head, Concat(MoveLines(g.moves)), MoveRecordText(m));
  }

  lemma MoveLinesSnoc(moves: seq<MoveRecord>, m: MoveRecord)
    ensures MoveLines(moves + [m]) == MoveLines(moves) + [MoveRecordText(m)]
  {
  }

  /** Number of moves that carry a time. */
  function TimedCount(moves: seq<MoveRecord>): nat
  {
    if moves == [] then 0
    else TimedCount(moves[..|moves| - 1]) + (if moves[|moves| - 1].time.Some? then 1 else 0)
  }

  lemma {:induction false} MoveLinesCount(moves: seq<MoveRecord>)
    ensures Count(Concat(MoveLines(moves)), '\n') == |moves| + TimedCount(moves)
    decreases |moves|
  {
    if moves != [] {
      var n := |moves| - 1;
      assert moves == moves[..n] + [moves[n]];
      MoveLinesSnoc(moves[..n], moves[n]);
      ConcatSnoc(MoveLines(moves[..n]), MoveRecordText(moves[n]));
      MoveLinesCount(moves[..n]);
      MoveRecordLineCount(moves[n]);
      CountAppend(Concat(MoveLines(moves[..n])), MoveRecordText(moves[n]), '\n');
    } else {
      assert MoveLines(moves) == [];
    }
  }

  /** The whole record has the version line, one line per present field, the
      position's lines and one or two lines per move. */
  lemma GameRecordLineCount(g: GameRecord)
    requires SingleLineFields(g)
    ensures Count(GameRecordText(g), '\n')
         == 1 + PresentCount(g)
          + ((if g.startPos.bulk.Some? then 9 else 1) + |g.startPos.addPieces| + 1)
          + (|g.moves| + TimedCount(g.moves))
  {
    var meta, pos, mv := Concat(MetaLines(g)), PositionText(g.startPos), Concat(MoveLines(g.moves));
    assert GameRecordText(g) == "V2.2\n" + meta + pos + mv;
    assert Count("V2.2\n", '\n') == 1 by {
      assert "V2.2" + "\n" == "V2.2\n";
      OneLine("V2.2");
    }
    MetadataLineCount(g);
    PositionLineCount(g.startPos);
    MoveLinesCount(g.moves);
    CountAppend3("V2.2\n" + meta, pos, mv, '\n');
    CountAppend("V2.2\n", meta, '\n');
  }

  /** Every record starts with the version line. */
  lemma StartsWithVersion(g: GameRecord)
    ensures |GameRecordText(g)| >= 5 && GameRecordText(g)[..5] == "V2.2\n"
  {
  }

  /** The record of the source's test: both players, event, site, start and
      end times, a 25-minute limit, the opening, the default position and
      two moves. */
  function ExampleRecord(): GameRecord
  {
    GameRecord(
      Some("NAKAHARA"), Some("YONENAGA"),
      Some("13th World Computer Shogi Championship"), Some("KAZUSA ARC"),
      Some(Time(Date(2003, 5, 3), Some(TimeOfDay(10, 30, 0)))),
      Some(Time(Date(2003, 5, 3), Some(TimeOfDay(11, 11, 5)))),
      Some(TimeLimit(1500, 0)),
      Some("YAGURA"),
      DefaultPosition(),
      [ MoveRecord(Move(Black, NewSquare(8, 7), NewSquare(8, 6), Pawn), Some(5)),
        MoveRecord(Toryo, None) ])
  }

  /** Proof step: splices the eight metadata lines into the record. */
  lemma RegroupRecord(version: string, meta: string, pos: string, moves: string,
                      l1: string, l2: string, l3: string, l4: string,
                      l5: string, l6: string, l7: string, l8: string)
    requires meta == l1 + l2 + l3 + l4 + l5 + l6 + l7 + l8
    ensures version + meta + pos + moves
         == version + l1 + l2 + l3 + l4 + l5 + l6 + l7 + l8 + pos + moves
  {
  }

  /** The eight metadata lines of the example, each spliced from its label
      and value. */
  lemma ExampleMetadata()
    ensures Concat(MetaLines(ExampleRecord()))
         == "N+NAKAHARA\n"
          + "N-YONENAGA\n"
          + "$EVENT:13th World Computer Shogi Championship\n"
          + "$SITE:KAZUSA ARC\n"
          + "$START_TIME:2003/05/03 10:30:00\n"
          + "$END_TIME:2003/05/03 11:11:05\n"
          + "$TIME_LIMIT:00:25+00\n"
          + "$OPENING:YAGURA\n"
  {
    var g := ExampleRecord();
    assert TimeValue(g.startTime) == Some("2003/05/03 10:30:00") by {
      StartTimeExample();
    }
    assert TimeValue(g.endTime) == Some("2003/05/03 11:11:05") by {
      EndTimeExample();
    }
    assert TimeLimitValue(g.timeLimit) == Some("00:25+00") by {
      TimeLimitExample();
    }
    MetadataInFixedOrder(g);
    ExampleLines();
    ExampleTimeLines();
    ExampleLimitLines();
  }

  /** Proof step: the player, event and site lines of the example. */
  lemma ExampleLines()
    ensures OptLine("N+", Some("NAKAHARA")) == "N+NAKAHARA\n"
    ensures OptLine("N-", Some("YONENAGA")) == "N-YONENAGA\n"
    ensures OptLine("$EVENT:", Some("13th World Computer Shogi Championship"))
         == "$EVENT:13th World Computer Shogi Championship\n"
    ensures OptLine("$SITE:", Some("KAZUSA ARC")) == "$SITE:KAZUSA ARC\n"
  {
    EventLine();
  }

  /** Proof step: the start- and end-time lines of the example, spliced. */
  lemma ExampleTimeLines()
    ensures "$START_TIME:" + "2003/05/03 10:30:00" + "\n" == "$START_TIME:2003/05/03 10:30:00\n"
    ensures "$END_TIME:" + "2003/05/03 11:11:05" + "\n" == "$END_TIME:2003/05/03 11:11:05\n"
  {
  }

  /** Proof step: the time-limit and opening lines of the example. */
  lemma ExampleLimitLines()
    ensures OptLine("$TIME_LIMIT:", Some("00:25+00")) == "$TIME_LIMIT:00:25+00\n"
    ensures OptLine("$OPENING:", Some("YAGURA")) == "$OPENING:YAGURA\n"
  {
  }

  /** Proof step: the event line of the example, spliced. */
  lemma EventLine()
    ensures "$EVENT:" + "13th World Computer Shogi Championship" + "\n"
         == "$EVENT:13th World Computer Shogi Championship\n"
  {
  }

  /** The record of the source's test renders to the text it expects, line
      by line. */
  lemma GameRecordExample()
    ensures GameRecordText(ExampleRecord())
         == "V2.2\n"
          + "N+NAKAHARA\n"
          + "N-YONENAGA\n"
          + "$EVENT:13th World Computer Shogi Championship\n"
          + "$SITE:KAZUSA ARC\n"
          + "$START_TIME:2003/05/03 10:30:00\n"
          + "$END_TIME:2003/05/03 11:11:05\n"
          + "$TIME_LIMIT:00:25+00\n"
          + "$OPENING:YAGURA\n"
          + "PI\n+\n"
          + "+8786FU\nT5\n%TORYO\n"
  {
    var g := ExampleRecord();
    ExampleMetadata();
    ExampleMoves();
    assert PositionText(g.startPos) == "PI\n+\n";
    RegroupRecord("V2.2\n", Concat(MetaLines(g)), PositionText(g.startPos), Concat(MoveLines(g.moves)),
                  "N+NAKAHARA\n", "N-YONENAGA\n", "$EVENT:13th World Computer Shogi Championship\n",
                  "$SITE:KAZUSA ARC\n", "$START_TIME:2003/05/03 10:30:00\n",
                  "$END_TIME:2003/05/03 11:11:05\n", "$TIME_LIMIT:00:25+00\n", "$OPENING:YAGURA\n");
  }

  lemma ExampleMoves()
    ensures Concat(MoveLines(ExampleRecord().moves)) == "+8786FU\nT5\n%TORYO\n"
  {
    var lines := MoveLines(ExampleRecord().moves);
    MoveRecordExamples();
    assert lines[..0] == [];
    ConcatPrefix(lines, 0);
    ConcatPrefix(lines, 1);
    assert lines[..2] == lines;
  }
}
