/**
 * Writing records with `dump_path` and reading the file back with
 * `parse_file` gives the same records, for records whose fields survive the
 * Markdown encoding: what the parser does with each line of a block, then
 * with a whole block, then with a whole file.
 */
module RoundTrip {
  import opened Results
  import opened Text
  import opened Dates
  import opened Issues
  import opened Markdown

  // ---------------------------------------------------------------------
  // The lines of a block, one at a time
  // ---------------------------------------------------------------------

  /** The title line starts a fresh record with the id and the title. */
  lemma TitleStep(s: ParserState, i: Issue)
    requires i.id >= 0 && IsTrimmed(i.title) && '-' !in i.title
    ensures Step(s, TitleLine(i) + "\n") == Ok(ParserState(s.issues + [NewIssue(i.id, i.title)], false, false))
  {
    var line := TitleLine(i) + "\n";
    TitleTag(i);
    assert line == "# " + IntText(i.id) + " - " + i.title + "\n";
    H1CodecInverts(i.id, i.title, "\n");
    HeadingStages(s, line);
  }

  lemma TitleTag(i: Issue)
    ensures ParseLine(TitleLine(i) + "\n") == H1
  {
    var line := TitleLine(i) + "\n";
    assert line[..2] == "# ";
    ClassifierPrecedence(line);
  }

  /** The subtitle line sets the subtitle of the current record. */
  lemma SubtitleStep(s: ParserState, subtitle: string)
    requires s.issues != [] && IsTrimmed(subtitle)
    ensures Step(s, "## " + subtitle + "\n") == Ok(WithCurrent(s, Current(s).(subtitle := subtitle)))
  {
    var line := "## " + subtitle + "\n";
    SubtitleTag(subtitle);
    H2CodecInverts(subtitle, "\n");
    SubtitleStages(s, line);
  }

  lemma SubtitleTag(subtitle: string)
    ensures ParseLine("## " + subtitle + "\n") == H2
  {
    var line := "## " + subtitle + "\n";
    assert line[..3] == "## " && line[1] == '#';
    ClassifierPrecedence(line);
  }

  /** An empty line changes nothing: there is no text to add to the content. */
  lemma BlankStep(s: ParserState)
    ensures Step(s, "\n") == Ok(s)
  {
    assert AllSpace("\n");
    BlankLine("\n");
    TrimEmpty("\n");
    StepContent(s, "\n");
  }

  /** The table header is a data row; before the separator it is not read. */
  lemma HeadStep(s: ParserState)
    requires !s.tdata
    ensures Step(s, TableHead + "\n") == Ok(s)
  {
    HeadLine(TableHead + "\n");
    StepDataRow(s, TableHead + "\n");
  }

  lemma HeadLine(line: string)
    requires line == TableHead + "\n"
    ensures ParseLine(line) == TData
  {
    HeadEnds(line);
    HeadOneLine(line);
    DataRowLine(line, 3, 103);
  }

  lemma HeadEnds(line: string)
    requires line == TableHead + "\n"
    ensures |line| == 105 && line[0] == '|' && line[3] == 'S' && line[102] == ' ' && line[103] == '|'
    ensures AllSpace(line[1..3])
  {
    assert line[1] == ' ' && line[2] == ' ';
  }

  lemma HeadOneLine(line: string)
    requires line == TableHead + "\n"
    ensures '\n' !in line[..103]
  {
    HeadAvoids('\n');
    assert |TableHead| == 104;
    assert line[..103] == TableHead[..103];
    assert TableHead == TableHead[..103] + TableHead[103..];
  }

  /** The header holds neither a line break nor a carriage return. */
  lemma HeadAvoids(c: char)
    requires c == '\n' || c == '\r'
    ensures c !in TableHead
  {
  }

  /** The separator row holds neither a line break nor a carriage return. */
  lemma SeparatorAvoids(c: char)
    requires c == '\n' || c == '\r'
    ensures c !in TableSeparator
  {
  }

  /** The separator row switches the table flag on. */
  lemma SeparatorStep(s: ParserState)
    ensures Step(s, TableSeparator + "\n") == Ok(s.(tdata := true))
  {
    SeparatorLine(TableSeparator + "\n");
    StepSeparator(s, TableSeparator + "\n");
  }

  lemma SeparatorLine(line: string)
    requires line == TableSeparator + "\n"
    ensures ParseLine(line) == TSep
  {
    var p, q, k := 2, 10, 11;
    assert line[0] == '|' && line[11] == '|';
    assert AllSpace(line[1..p]) by {
      assert line[1] == ' ';
    }
    assert AllDashes(line[p..q]) by {
      assert forall j :: p <= j < q ==> line[j] == '-';
      assert forall j :: p <= j < q ==> line[p..q][j - p] == line[j];
    }
    assert AllSpace(line[q..k]) by {
      assert line[q] == ' ';
    }
    assert SeparatorRowAt(line, p, q, k);
    LineStarts(line);
    ClassifierPrecedence(line);
  }

  // ---------------------------------------------------------------------
  // The data row
  // ---------------------------------------------------------------------

  /** Cells with a space on either side and a bar after each: the data row after its opening bar. */
  function CellsText(cells: seq<string>): string
    decreases |cells|
  {
    if cells == [] then "" else (" " + cells[0] + " ") + "|" + CellsText(cells[1..])
  }

  /** The padded cells of a record's data row, one function per column. */
  function RowCells(i: Issue): seq<string> {
    [StatusCell(i), OpenCell(i), DoneCell(i), CloseCell(i), EnvironmentCell(i), PriorityCell(i), TypeCell(i), MilestoneCell(i)]
  }

  function StatusCell(i: Issue): string { PadRight(i.status.Label(), 8) }
  function OpenCell(i: Issue): string { DateText(i.openDate) }
  function DoneCell(i: Issue): string { PadRight(DateText(i.doneDate), 10) }
  function CloseCell(i: Issue): string { PadRight(DateText(i.closeDate), 10) }
  function EnvironmentCell(i: Issue): string { PadRight(EnvironmentText(i), 11) }
  function PriorityCell(i: Issue): string { PadRight(i.priority.Label(), 8) }
  function TypeCell(i: Issue): string { PadRight(i.issueType.Label(), 11) }
  function MilestoneCell(i: Issue): string { PadRight(i.milestone, 11) }

  /** The table fields of a record, as `parse_tvalues` returns them. */
  function Fields(i: Issue): RowValues {
    RowValues(i.status, i.openDate, i.doneDate, i.closeDate, i.environment, i.priority, i.issueType, i.milestone)
  }

  lemma CellsAt(cells: seq<string>, k: nat)
    requires k < |cells|
    ensures CellsText(cells[k..]) == (" " + cells[k] + " ") + "|" + CellsText(cells[k + 1..])
  {
    assert cells[k..][0] == cells[k] && cells[k..][1..] == cells[k + 1..];
  }

  /** One more cell moves from the text after the bars to the text before them. */
  lemma MoveCell(p: string, c: string, t: string)
    ensures p + " |" + ((" " + c + " ") + "|" + t) == (p + " | " + c) + " |" + t
  {
  }

  lemma FirstCell(c: string, t: string)
    ensures "|" + ((" " + c + " ") + "|" + t) == ("| " + c) + " |" + t
  {
  }

  /** Eight cells written between bars, as the row's f-string writes them, are the cells' text after a bar. */
  lemma EightCellsText(c0: string, c1: string, c2: string, c3: string, c4: string, c5: string, c6: string, c7: string)
    ensures "| " + c0 + " | " + c1 + " | " + c2 + " | " + c3 + " | " + c4 + " | " + c5 + " | " + c6 + " | " + c7 + " |"
      == "|" + CellsText([c0, c1, c2, c3, c4, c5, c6, c7])
  {
    var cs := [c0, c1, c2, c3, c4, c5, c6, c7];
    var p0 := "| " + cs[0];
    var p1 := p0 + " | " + cs[1];
    var p2 := p1 + " | " + cs[2];
    var p3 := p2 + " | " + cs[3];
    var p4 := p3 + " | " + cs[4];
    var p5 := p4 + " | " + cs[5];
    var p6 := p5 + " | " + cs[6];
    var p7 := p6 + " | " + cs[7];
    assert cs[8..] == [];
    CellsAt(cs, 0);
    FirstCell(cs[0], CellsText(cs[1..]));
    CellsAt(cs, 1);
    MoveCell(p0, cs[1], CellsText(cs[2..]));
    CellsAt(cs, 2);
    MoveCell(p1, cs[2], CellsText(cs[3..]));
    CellsAt(cs, 3);
    MoveCell(p2, cs[3], CellsText(cs[4..]));
    CellsAt(cs, 4);
    MoveCell(p3, cs[4], CellsText(cs[5..]));
    CellsAt(cs, 5);
    MoveCell(p4, cs[5], CellsText(cs[6..]));
    CellsAt(cs, 6);
    MoveCell(p5, cs[6], CellsText(cs[7..]));
    CellsAt(cs, 7);
    MoveCell(p6, cs[7], CellsText(cs[8..]));
    assert cs[0..] == cs;
  }

  /** The data row is its cells, each between a space and a space and a bar, after an opening bar. */
  lemma DataRowCells(i: Issue)
    ensures DataRow(i) == "|" + CellsText(RowCells(i))
  {
    EightCellsText(StatusCell(i), OpenCell(i), DoneCell(i), CloseCell(i),
      EnvironmentCell(i), PriorityCell(i), TypeCell(i), MilestoneCell(i));
  }

  /** Splitting the cells on the bar gives each cell with its spaces, then the empty text after the last bar. */
  lemma {:induction false} SplitCells(cells: seq<string>)
    requires forall k :: 0 <= k < |cells| ==> '|' !in cells[k]
    ensures var parts := Split(CellsText(cells), '|');
      && |parts| == |cells| + 1 && parts[|cells|] == ""
      && forall k :: 0 <= k < |cells| ==> parts[k] == " " + cells[k] + " "
    decreases |cells|
  {
    if cells == [] {
      assert '|' !in "";
    } else {
      var first := " " + cells[0] + " ";
      var rest := cells[1..];
      assert '|' !in first;
      SplitCells(rest);
      SplitAtFirst(first, CellsText(rest), '|');
      assert CellsText(cells) == first + ['|'] + CellsText(rest);
      var parts := Split(CellsText(cells), '|');
      assert parts == [first] + Split(CellsText(rest), '|');
      forall k | 0 < k < |cells| ensures parts[k] == " " + cells[k] + " " {
        assert parts[k] == Split(CellsText(rest), '|')[k - 1];
        assert rest[k - 1] == cells[k];
      }
    }
  }

  /** An environment that survives its cell: at most eleven characters, trimmed, free of bars and line breaks. */
  predicate EnvironmentReadable(e: string) {
    |e| <= 11 && IsTrimmed(e) && '|' !in e && SingleLine(e)
  }

  /** A milestone that the row writes as one cell of its own: trimmed, free of bars and line breaks. */
  predicate MilestoneWritable(m: string) {
    IsTrimmed(m) && '|' !in m && SingleLine(m)
  }

  /** A milestone that survives its cell: empty or starting with a version, and written as a cell of its own. */
  predicate MilestoneReadable(m: string) {
    (m == "" || StartsWithVersion(m)) && MilestoneWritable(m)
  }

  /** Every field of the row is written as the text of its own cell. */
  predicate RowWritable(i: Issue) {
    EnvironmentReadable(i.environment) && MilestoneWritable(i.milestone)
  }

  /** The environment and the milestone survive their cells. */
  predicate RowReadable(i: Issue) {
    EnvironmentReadable(i.environment) && MilestoneReadable(i.milestone)
  }

  /** A trimmed text padded on the right and put between spaces trims back to itself. */
  lemma PaddedCell(x: string, n: nat)
    requires IsTrimmed(x)
    ensures Trim(" " + PadRight(x, n) + " ") == x
  {
    var r := PadRight(x, n);
    var pad := r[|x|..] + " ";
    assert AllSpace(pad) by {
      assert forall k :: 0 <= k < |r| - |x| ==> pad[k] == r[|x|..][k];
    }
    assert r == x + r[|x|..];
    assert " " + r + " " == " " + x + pad;
    TrimPadded(" ", x, pad);
  }

  /** Padding adds spaces only. */
  lemma PadAvoids(x: string, n: nat, c: char)
    requires c !in x && c != ' '
    ensures c !in PadRight(x, n)
  {
    if |x| < n {
      var sp := Spaces(n - |x|);
      assert forall k :: 0 <= k < |sp| ==> sp[k] == ' ';
    }
  }

  /** A label of the enums: trimmed, one word, no bar. */
  predicate IsLabel(l: string) {
    l != "" && IsTrimmed(l) && '|' !in l && SingleLine(l) && 'A' <= l[0] <= 'Z'
  }

  lemma StatusLabel(s: Status)
    ensures IsLabel(s.Label())
  {
    match s
    case Open => assert "Open"[0] == 'O' && "Open"[3] == 'n';
    case Test => assert "Test"[0] == 'T' && "Test"[3] == 't';
    case Closed => assert "Closed"[0] == 'C' && "Closed"[5] == 'd';
    case Canceled => assert "Canceled"[0] == 'C' && "Canceled"[7] == 'd';
  }

  lemma PriorityLabel(p: Priority)
    ensures IsLabel(p.Label())
  {
    match p
    case Low => assert "Low"[0] == 'L' && "Low"[2] == 'w';
    case Medium => assert "Medium"[0] == 'M' && "Medium"[5] == 'm';
    case High => assert "High"[0] == 'H' && "High"[3] == 'h';
    case Critical => assert "Critical"[0] == 'C' && "Critical"[7] == 'l';
  }

  lemma TypeLabel(t: IssueType)
    ensures IsLabel(t.Label())
  {
    match t
    case Bug => assert "Bug"[0] == 'B' && "Bug"[2] == 'g';
    case Feature => assert "Feature"[0] == 'F' && "Feature"[6] == 'e';
    case Improvement => assert "Improvement"[0] == 'I' && "Improvement"[10] == 't';
  }

  lemma DateCell(d: Option<Date>)
    ensures IsTrimmed(DateText(d)) && '|' !in DateText(d) && SingleLine(DateText(d))
  {
  }

  /** A padded cell of a trimmed, bar-free text holds no bar and strips back to the text. */
  lemma PadCell(x: string, n: nat)
    requires IsTrimmed(x) && '|' !in x
    ensures '|' !in PadRight(x, n) && Trim(" " + PadRight(x, n) + " ") == x
  {
    PadAvoids(x, n, '|');
    PaddedCell(x, n);
  }

  /** The status cell strips back to the status label. */
  lemma StatusCellReads(i: Issue)
    ensures '|' !in StatusCell(i) && Trim(" " + StatusCell(i) + " ") == i.status.Label()
  {
    StatusLabel(i.status);
    PadCell(i.status.Label(), 8);
  }

  /** The open-date cell, which the row does not pad, strips back to the date text. */
  lemma OpenCellReads(i: Issue)
    ensures '|' !in OpenCell(i) && Trim(" " + OpenCell(i) + " ") == DateText(i.openDate)
  {
    DateCell(i.openDate);
    TrimPadded(" ", DateText(i.openDate), " ");
  }

  lemma DoneCellReads(i: Issue)
    ensures '|' !in DoneCell(i) && Trim(" " + DoneCell(i) + " ") == DateText(i.doneDate)
  {
    DateCell(i.doneDate);
    PadCell(DateText(i.doneDate), 10);
  }

  lemma CloseCellReads(i: Issue)
    ensures '|' !in CloseCell(i) && Trim(" " + CloseCell(i) + " ") == DateText(i.closeDate)
  {
    DateCell(i.closeDate);
    PadCell(DateText(i.closeDate), 10);
  }

  /** The environment cell strips back to the environment when it fits in the column. */
  lemma EnvironmentCellReads(i: Issue)
    requires RowWritable(i)
    ensures '|' !in EnvironmentCell(i) && Trim(" " + EnvironmentCell(i) + " ") == i.environment
  {
    assert EnvironmentText(i) == i.environment;
    PadCell(i.environment, 11);
  }

  lemma PriorityCellReads(i: Issue)
    ensures '|' !in PriorityCell(i) && Trim(" " + PriorityCell(i) + " ") == i.priority.Label()
  {
    PriorityLabel(i.priority);
    PadCell(i.priority.Label(), 8);
  }

  lemma TypeCellReads(i: Issue)
    ensures '|' !in TypeCell(i) && Trim(" " + TypeCell(i) + " ") == i.issueType.Label()
  {
    TypeLabel(i.issueType);
    PadCell(i.issueType.Label(), 11);
  }

  lemma MilestoneCellReads(i: Issue)
    requires RowWritable(i)
    ensures '|' !in MilestoneCell(i) && Trim(" " + MilestoneCell(i) + " ") == i.milestone
  {
    PadCell(i.milestone, 11);
  }

  /** The text between the outer bars of a data row is its cells. */
  lemma RowInner(i: Issue)
    ensures Inner(DataRow(i) + "\n") == CellsText(RowCells(i))
  {
    DataRowCells(i);
    var line := DataRow(i) + "\n";
    assert line == "|" + CellsText(RowCells(i)) + "\n";
    assert line[1..|line| - 1] == CellsText(RowCells(i));
  }

  /** The inner text of the line is the eight cells, none holding a bar. */
  predicate EightCells(line: string, c0: string, c1: string, c2: string, c3: string,
                       c4: string, c5: string, c6: string, c7: string) {
    && Inner(line) == CellsText([c0, c1, c2, c3, c4, c5, c6, c7])
    && '|' !in c0 && '|' !in c1 && '|' !in c2 && '|' !in c3
    && '|' !in c4 && '|' !in c5 && '|' !in c6 && '|' !in c7
  }

  /** The cells, each free of bars, split the line into nine parts: each cell with its spaces, then `""`. */
  lemma EightSplit(line: string, c0: string, c1: string, c2: string, c3: string,
                   c4: string, c5: string, c6: string, c7: string)
    requires EightCells(line, c0, c1, c2, c3, c4, c5, c6, c7)
    ensures var p := Split(Inner(line), '|');
      && |p| == 9
      && p[0] == " " + c0 + " " && p[1] == " " + c1 + " " && p[2] == " " + c2 + " " && p[3] == " " + c3 + " "
      && p[4] == " " + c4 + " " && p[5] == " " + c5 + " " && p[6] == " " + c6 + " " && p[7] == " " + c7 + " "
  {
    var cs := [c0, c1, c2, c3, c4, c5, c6, c7];
    forall k | 0 <= k < |cs| ensures '|' !in cs[k] {
      if k < 4 {
        assert k == 0 || k == 1 || k == 2 || k == 3;
      } else {
        assert k == 4 || k == 5 || k == 6 || k == 7;
      }
    }
    SplitCells(cs);
  }

  /** The k-th value `parse_tdata` gives is the k-th part of the line, stripped. */
  lemma CellAt(line: string, k: nat, c: string, v: string)
    requires k < |Split(Inner(line), '|')| && Split(Inner(line), '|')[k] == " " + c + " "
    requires Trim(" " + c + " ") == v
    ensures k < |ParseTData(line)| && ParseTData(line)[k] == v
  {
  }

  /** A writable record's data row has eight bar-free cells between its outer bars. */
  lemma RowEightCells(i: Issue)
    requires RowWritable(i)
    ensures EightCells(DataRow(i) + "\n", StatusCell(i), OpenCell(i), DoneCell(i), CloseCell(i),
      EnvironmentCell(i), PriorityCell(i), TypeCell(i), MilestoneCell(i))
  {
    RowInner(i);
    StatusCellReads(i);
    OpenCellReads(i);
    DoneCellReads(i);
    CloseCellReads(i);
    EnvironmentCellReads(i);
    PriorityCellReads(i);
    TypeCellReads(i);
    MilestoneCellReads(i);
  }

  /** `parse_tdata` gives back the texts of the eight fields, and an empty cell after the closing bar. */
  lemma RowTData(i: Issue)
    requires RowWritable(i)
    ensures var v := ParseTData(DataRow(i) + "\n");
      && |v| == 9
      && v[0] == i.status.Label() && v[1] == DateText(i.openDate)
      && v[2] == DateText(i.doneDate) && v[3] == DateText(i.closeDate)
      && v[4] == i.environment && v[5] == i.priority.Label()
      && v[6] == i.issueType.Label() && v[7] == i.milestone
  {
    var line := DataRow(i) + "\n";
    RowEightCells(i);
    EightSplit(line, StatusCell(i), OpenCell(i), DoneCell(i), CloseCell(i),
      EnvironmentCell(i), PriorityCell(i), TypeCell(i), MilestoneCell(i));
    StatusCellReads(i);
    CellAt(line, 0, StatusCell(i), i.status.Label());
    OpenCellReads(i);
    CellAt(line, 1, OpenCell(i), DateText(i.openDate));
    DoneCellReads(i);
    CellAt(line, 2, DoneCell(i), DateText(i.doneDate));
    CloseCellReads(i);
    CellAt(line, 3, CloseCell(i), DateText(i.closeDate));
    EnvironmentCellReads(i);
    CellAt(line, 4, EnvironmentCell(i), i.environment);
    PriorityCellReads(i);
    CellAt(line, 5, PriorityCell(i), i.priority.Label());
    TypeCellReads(i);
    CellAt(line, 6, TypeCell(i), i.issueType.Label());
    MilestoneCellReads(i);
    CellAt(line, 7, MilestoneCell(i), i.milestone);
  }

  /** Each field codec reads back the bare text the row writes. */
  lemma StatusBare(s: Status)
    ensures ParseStatus(s.Label()) == Ok(s)
  {
    assert "" + s.Label() + "" == s.Label();
    StatusCodecInverts(s, "", "");
  }

  lemma DateBare(d: Option<Date>)
    ensures ParseDate(DateText(d)) == Ok(d)
  {
    assert "" + DateText(d) + "" == DateText(d);
    DateCodecInverts(d, "", "");
  }

  lemma PriorityBare(p: Priority)
    ensures ParsePriority(p.Label()) == Ok(p)
  {
    assert "" + p.Label() + "" == p.Label();
    PriorityCodecInverts(p, "", "");
  }

  lemma TypeBare(t: IssueType)
    ensures ParseType(t.Label()) == Ok(t)
  {
    assert "" + t.Label() + "" == t.Label();
    TypeCodecInverts(t, "", "");
  }

  lemma MilestoneBare(m: string)
    requires m == "" || (StartsWithVersion(m) && IsTrimmed(m))
    ensures ParseMilestone(m) == m
  {
    assert "" + m + "" == m;
    MilestoneCodecInverts(m, "", "");
  }

  /** `parse_tvalues` of eight texts each of which its codec reads as the matching field. */
  lemma TValuesOfTexts(v: seq<string>, r: RowValues)
    requires |v| >= 8
    requires ParseStatus(v[0]) == Ok(r.status) && ParseDate(v[1]) == Ok(r.openDate)
    requires ParseDate(v[2]) == Ok(r.doneDate) && ParseDate(v[3]) == Ok(r.closeDate)
    requires v[4] == r.environment && ParsePriority(v[5]) == Ok(r.priority)
    requires ParseType(v[6]) == Ok(r.issueType) && ParseMilestone(v[7]) == r.milestone
    ensures ParseTValues(v) == Ok(r)
  {
    RowOfCells(v);
  }

  /** `parse_tvalues` of a readable record's row gives back all eight of its table fields. */
  lemma RowFieldsRead(i: Issue)
    requires RowReadable(i)
    ensures ParseTValues(ParseTData(DataRow(i) + "\n")) == Ok(Fields(i))
  {
    RowTData(i);
    StatusBare(i.status);
    DateBare(i.openDate);
    DateBare(i.doneDate);
    DateBare(i.closeDate);
    PriorityBare(i.priority);
    TypeBare(i.issueType);
    MilestoneBare(i.milestone);
    TValuesOfTexts(ParseTData(DataRow(i) + "\n"), Fields(i));
  }

  /**
   * A milestone written as a cell of its own that does not start with a version is read
   * back as no milestone; every other table field still comes back.
   */
  lemma MilestoneDropped(i: Issue)
    requires RowWritable(i) && !StartsWithVersion(i.milestone)
    ensures ParseTValues(ParseTData(DataRow(i) + "\n")) == Ok(Fields(i).(milestone := ""))
  {
    RowTData(i);
    StatusBare(i.status);
    DateBare(i.openDate);
    DateBare(i.doneDate);
    DateBare(i.closeDate);
    PriorityBare(i.priority);
    TypeBare(i.issueType);
    TrimTrimmed(i.milestone);
    TValuesOfTexts(ParseTData(DataRow(i) + "\n"), Fields(i).(milestone := ""));
  }

  /** No cell of a writable record's row holds a line break or a carriage return. */
  lemma CellsOneLine(i: Issue, c: char)
    requires RowWritable(i) && (c == '\n' || c == '\r')
    ensures c !in StatusCell(i) && c !in OpenCell(i) && c !in DoneCell(i) && c !in CloseCell(i)
    ensures c !in EnvironmentCell(i) && c !in PriorityCell(i) && c !in TypeCell(i) && c !in MilestoneCell(i)
  {
    StatusLabel(i.status);
    PriorityLabel(i.priority);
    TypeLabel(i.issueType);
    DateCell(i.openDate);
    DateCell(i.doneDate);
    DateCell(i.closeDate);
    assert EnvironmentText(i) == i.environment;
    PadAvoids(i.status.Label(), 8, c);
    PadAvoids(DateText(i.doneDate), 10, c);
    PadAvoids(DateText(i.closeDate), 10, c);
    PadAvoids(i.environment, 11, c);
    PadAvoids(i.priority.Label(), 8, c);
    PadAvoids(i.issueType.Label(), 11, c);
    PadAvoids(i.milestone, 11, c);
  }

  /** Text made of cells avoids a character other than the space and the bar when each of its cells does. */
  lemma {:induction false} CellsTextAvoids(cells: seq<string>, c: char)
    requires c != ' ' && c != '|'
    requires forall k :: 0 <= k < |cells| ==> c !in cells[k]
    ensures c !in CellsText(cells)
    decreases |cells|
  {
    if cells != [] {
      CellsTextAvoids(cells[1..], c);
    }
  }

  /** A row of eight cells avoids a character other than the space and the bar when each cell does. */
  lemma EightCellsAvoid(c0: string, c1: string, c2: string, c3: string, c4: string, c5: string, c6: string, c7: string, c: char)
    requires c != ' ' && c != '|'
    requires c !in c0 && c !in c1 && c !in c2 && c !in c3
    requires c !in c4 && c !in c5 && c !in c6 && c !in c7
    ensures c !in "|" + CellsText([c0, c1, c2, c3, c4, c5, c6, c7])
  {
    var cs := [c0, c1, c2, c3, c4, c5, c6, c7];
    forall k | 0 <= k < |cs| ensures c !in cs[k] {
      if k < 4 {
        assert k == 0 || k == 1 || k == 2 || k == 3;
      } else {
        assert k == 4 || k == 5 || k == 6 || k == 7;
      }
    }
    CellsTextAvoids(cs, c);
  }

  /** Text made of cells ends with a space and a bar. */
  lemma {:induction false} CellsTextEnds(cells: seq<string>)
    requires cells != []
    ensures var t := CellsText(cells); |t| >= 3 && t[|t| - 2] == ' ' && t[|t| - 1] == '|'
    decreases |cells|
  {
    if |cells| > 1 {
      CellsTextEnds(cells[1..]);
    }
  }

  /** The shape the classifier looks for, on a row of eight cells. */
  lemma EightCellsShape(c0: string, c1: string, c2: string, c3: string, c4: string, c5: string, c6: string, c7: string)
    requires c0 != ""
    ensures var t := "|" + CellsText([c0, c1, c2, c3, c4, c5, c6, c7]);
      && |t| > 4 && t[0] == '|' && t[1] == ' ' && t[2] == c0[0]
      && t[|t| - 2] == ' ' && t[|t| - 1] == '|'
  {
    var cs := [c0, c1, c2, c3, c4, c5, c6, c7];
    CellsTextEnds(cs);
    CellsAt(cs, 0);
    assert cs[0..] == cs;
  }

  /** The data row of a readable record is one line, with no carriage return. */
  lemma RowSingleLine(i: Issue)
    requires RowReadable(i)
    ensures SingleLine(DataRow(i))
  {
    DataRowCells(i);
    CellsOneLine(i, '\n');
    EightCellsAvoid(StatusCell(i), OpenCell(i), DoneCell(i), CloseCell(i),
      EnvironmentCell(i), PriorityCell(i), TypeCell(i), MilestoneCell(i), '\n');
    CellsOneLine(i, '\r');
    EightCellsAvoid(StatusCell(i), OpenCell(i), DoneCell(i), CloseCell(i),
      EnvironmentCell(i), PriorityCell(i), TypeCell(i), MilestoneCell(i), '\r');
  }

  /** The data row of a readable record opens with a bar, a space and a letter, and closes with a space and a bar, on one line. */
  lemma RowShape(i: Issue)
    requires RowReadable(i)
    ensures var r := DataRow(i);
      && |r| > 4 && r[0] == '|' && r[1] == ' ' && !IsSpace(r[2]) && r[2] != '-'
      && r[|r| - 2] == ' ' && r[|r| - 1] == '|' && '\n' !in r
  {
    DataRowCells(i);
    RowSingleLine(i);
    StatusLabel(i.status);
    assert StatusCell(i)[0] == i.status.Label()[0];
    EightCellsShape(StatusCell(i), OpenCell(i), DoneCell(i), CloseCell(i),
      EnvironmentCell(i), PriorityCell(i), TypeCell(i), MilestoneCell(i));
  }

  /** The data row of a readable record is classified as a table data row. */
  lemma DataRowTag(i: Issue)
    requires RowReadable(i)
    ensures ParseLine(DataRow(i) + "\n") == TData
  {
    RowShape(i);
    RowLineTag(DataRow(i));
  }

  /** A one-line row of that shape, with its line break, is a data row. */
  lemma RowLineTag(r: string)
    requires |r| > 4 && r[0] == '|' && r[1] == ' ' && !IsSpace(r[2]) && r[2] != '-'
    requires r[|r| - 2] == ' ' && r[|r| - 1] == '|' && '\n' !in r
    ensures ParseLine(r + "\n") == TData
  {
    var line := r + "\n";
    var k := |r| - 1;
    assert line[..k] == r[..k];
    assert r == line[..k] + r[k..];
    assert line[1..2][0] == line[1];
    DataRowLine(line, 2, k);
  }

  /** Under the table flag, the data row of a readable record fills the current record with its fields. */
  lemma RowStep(s: ParserState, i: Issue)
    requires s.tdata && s.issues != [] && RowReadable(i)
    ensures Step(s, DataRow(i) + "\n") == Ok(FillRow(s, Fields(i)))
  {
    DataRowTag(i);
    StepDataRow(s, DataRow(i) + "\n");
    RowFieldsRead(i);
  }

  // ---------------------------------------------------------------------
  // The content lines
  // ---------------------------------------------------------------------

  /**
   * A content line the parser keeps as it is: a non-empty, stripped
   * paragraph or list item, ended by its line break.
   */
  predicate ContentLine(line: string) {
    && EndsLine(line) && '\r' !in line
    && var body := line[..|line| - 1];
       body != "" && '\n' !in body && IsTrimmed(body) && (StartsWithWord(body) || StartsWith(body, "- "))
  }

  /** A line of a stored body: a content line, or a blank line that the reader skips. */
  predicate BodyLine(line: string) {
    ContentLine(line) || line == "\n"
  }

  /** The body lines the reader keeps: all but the blank ones, in order. */
  function KeptLines(lines: seq<string>): (r: seq<string>)
    ensures |r| <= |lines|
  {
    if lines == [] then []
    else (if lines[0] == "\n" then [] else [lines[0]]) + KeptLines(lines[1..])
  }

  /** A content line is read as a paragraph or a list item. */
  lemma ContentTag(line: string)
    requires ContentLine(line)
    ensures IsContentTag(ParseLine(line))
  {
    var body := line[..|line| - 1];
    assert line == body + "\n";
    if StartsWithWord(body) {
      WordLine(line);
    } else {
      assert line[..2] == body[..2];
      ItemLine(line);
    }
  }

  /** Stripping a content line takes off only its line break. */
  lemma ContentTrim(line: string)
    requires ContentLine(line)
    ensures Trim(line) != "" && Trim(line) + "\n" == line
  {
    var body := line[..|line| - 1];
    assert "" + body + "\n" == line;
    assert AllSpace("\n");
    TrimPadded("", body, "\n");
  }

  /** After the row, a content line is appended to the content of the current record. */
  lemma ContentStep(s: ParserState, line: string)
    requires s.content && s.issues != [] && ContentLine(line)
    ensures Step(s, line) == Ok(WithCurrent(s, Current(s).(content := Current(s).content + line)))
  {
    ContentTag(line);
    ContentTrim(line);
    StepContent(s, line);
    assert Current(s).content + Trim(line) + "\n" == Current(s).content + line;
  }

  /** Replacing the last record of a state written out as its records. */
  lemma WithLast(a: seq<Issue>, r: Issue, x: Issue, tdata: bool, content: bool)
    ensures Current(ParserState(a + [r], tdata, content)) == r
    ensures WithCurrent(ParserState(a + [r], tdata, content), x) == ParserState(a + [x], tdata, content)
  {
    assert (a + [r])[|a| := x] == a + [x];
  }

  /** The same step, on a state written out as its records, the last one being filled in. */
  lemma ContentLineStep(a: seq<Issue>, r: Issue, tdata: bool, line: string)
    requires ContentLine(line)
    ensures Step(ParserState(a + [r], tdata, true), line)
      == Ok(ParserState(a + [r.(content := r.content + line)], tdata, true))
  {
    WithLast(a, r, r.(content := r.content + line), tdata, true);
    ContentStep(ParserState(a + [r], tdata, true), line);
  }

  /** The loop takes a content line, then goes on with the rest. */
  lemma ContentLineThen(a: seq<Issue>, r: Issue, tdata: bool, line: string, rest: seq<string>)
    requires ContentLine(line)
    ensures Run(ParserState(a + [r], tdata, true), [line] + rest)
      == Run(ParserState(a + [r.(content := r.content + line)], tdata, true), rest)
  {
    ContentLineStep(a, r, tdata, line);
    RunCons(ParserState(a + [r], tdata, true), line, rest);
  }

  /** The loop takes the first content line, then goes on with the rest. */
  lemma ContentRunCons(a: seq<Issue>, r: Issue, tdata: bool, lines: seq<string>)
    requires lines != [] && ContentLine(lines[0])
    ensures Run(ParserState(a + [r], tdata, true), lines)
      == Run(ParserState(a + [r.(content := r.content + lines[0])], tdata, true), lines[1..])
  {
    var line, rest := lines[0], lines[1..];
    assert lines == [line] + rest;
    ContentLineThen(a, r, tdata, line, rest);
  }

  /** The loop skips a blank line in the body. */
  lemma BlankRunCons(a: seq<Issue>, r: Issue, tdata: bool, lines: seq<string>)
    requires lines != [] && lines[0] == "\n"
    ensures Run(ParserState(a + [r], tdata, true), lines) == Run(ParserState(a + [r], tdata, true), lines[1..])
  {
    var rest := lines[1..];
    assert lines == ["\n"] + rest;
    BlankStep(ParserState(a + [r], tdata, true));
    RunCons(ParserState(a + [r], tdata, true), "\n", rest);
  }

  lemma KeptBlank(lines: seq<string>)
    requires lines != [] && lines[0] == "\n"
    ensures KeptLines(lines) == KeptLines(lines[1..])
  {
    assert KeptLines(lines) == [] + KeptLines(lines[1..]);
  }

  lemma KeptContent(lines: seq<string>)
    requires lines != [] && lines[0] != "\n"
    ensures Concat(KeptLines(lines)) == lines[0] + Concat(KeptLines(lines[1..]))
  {
    var k := KeptLines(lines);
    assert k == [lines[0]] + KeptLines(lines[1..]);
    assert k[0] == lines[0] && k[1..] == KeptLines(lines[1..]);
  }

  /** Appending the first line and then the kept rest is appending all the kept lines. */
  lemma AppendContent(r: Issue, lines: seq<string>)
    requires lines != [] && lines[0] != "\n"
    ensures var r1 := r.(content := r.content + lines[0]);
      r1.(content := r1.content + Concat(KeptLines(lines[1..]))) == r.(content := r.content + Concat(KeptLines(lines)))
  {
    KeptContent(lines);
    assert r.content + lines[0] + Concat(KeptLines(lines[1..])) == r.content + Concat(KeptLines(lines));
  }

  /**
   * Body lines after the row: the ones that are not blank are appended, in
   * order, to the content of the last record.
   */
  lemma {:induction false} ContentRun(a: seq<Issue>, r: Issue, tdata: bool, lines: seq<string>)
    requires forall k :: 0 <= k < |lines| ==> BodyLine(lines[k])
    ensures Run(ParserState(a + [r], tdata, true), lines)
      == Ok(ParserState(a + [r.(content := r.content + Concat(KeptLines(lines)))], tdata, true))
    decreases |lines|
  {
    if lines == [] {
      assert r.content + Concat(KeptLines(lines)) == r.content;
    } else if lines[0] == "\n" {
      BlankRunCons(a, r, tdata, lines);
      ContentRun(a, r, tdata, lines[1..]);
      KeptBlank(lines);
    } else {
      ContentRunCons(a, r, tdata, lines);
      ContentRun(a, r.(content := r.content + lines[0]), tdata, lines[1..]);
      AppendContent(r, lines);
    }
  }

  // ---------------------------------------------------------------------
  // The block of one record
  // ---------------------------------------------------------------------

  /** The title line of a record's block. */
  function TitleLines(i: Issue): seq<string> {
    [TitleLine(i) + "\n"]
  }

  /** The subtitle line, when there is one. */
  function SubtitleLines(i: Issue): seq<string> {
    if i.subtitle != "" then ["## " + i.subtitle + "\n"] else []
  }

  /** A blank line, the header, the separator, the data row and a blank line. */
  function TableLines(i: Issue): seq<string> {
    ["\n", TableHead + "\n", TableSeparator + "\n", DataRow(i) + "\n", "\n"]
  }

  /** The lines a file reader yields for the block of one record. */
  function BlockLines(i: Issue): seq<string> {
    TitleLines(i) + SubtitleLines(i) + TableLines(i) + FileLines(i.content)
  }

  /** A title the heading gives back: stripped, on one line, and without a dash. */
  predicate TitleReadable(t: string) {
    IsTrimmed(t) && '-' !in t && SingleLine(t)
  }

  /** A subtitle the second heading gives back: stripped and on one line. */
  predicate SubtitleReadable(t: string) {
    IsTrimmed(t) && SingleLine(t)
  }

  /** A body made of content lines and blank lines. */
  predicate BodyReadable(c: string) {
    forall k :: 0 <= k < |FileLines(c)| ==> BodyLine(FileLines(c)[k])
  }

  /**
   * A record whose block the parser reads back as the record: a non-negative
   * id, a title and subtitle the headings give back, table fields that
   * survive their cells, and a body of content lines and blank lines.
   */
  predicate Readable(i: Issue) {
    && i.id >= 0 && TitleReadable(i.title) && SubtitleReadable(i.subtitle)
    && RowReadable(i) && BodyReadable(i.content)
  }

  /** A record as the reader gives it back: the blank lines of its body are gone. */
  function Saved(i: Issue): Issue {
    i.(content := Concat(KeptLines(FileLines(i.content))))
  }

  /** Two lines, then more: the first line, then the second, then more. */
  lemma TwoLines(x: string, y: string, more: seq<string>)
    ensures [x, y] + more == [x] + ([y] + more)
  {
  }

  /** Three lines, then more, taken one at a time. */
  lemma ThreeLines(x: string, y: string, z: string, more: seq<string>)
    ensures [x, y, z] + more == [x] + ([y] + ([z] + more))
  {
  }

  /** Five lines, then more: three, then the last two. */
  lemma FiveLines(x0: string, x1: string, x2: string, x3: string, x4: string, more: seq<string>)
    ensures [x0, x1, x2, x3, x4] + more == [x0, x1, x2] + ([x3, x4] + more)
  {
  }

  /** The four parts of a block, then the rest, each part in front of the ones after it. */
  lemma FourParts(p: seq<string>, q: seq<string>, r: seq<string>, c: seq<string>, rest: seq<string>)
    ensures p + q + r + c + rest == p + (q + (r + (c + rest)))
  {
  }

  /** A step that succeeds hands its state to the rest of the loop. */
  lemma RunStep(s: ParserState, line: string, rest: seq<string>, t: ParserState)
    requires Step(s, line) == Ok(t)
    ensures Run(s, [line] + rest) == Run(t, rest)
  {
    RunCons(s, line, rest);
  }

  /** The title line starts a fresh record with the id and the title. */
  lemma TitleRun(s: ParserState, i: Issue, rest: seq<string>)
    requires i.id >= 0 && IsTrimmed(i.title) && '-' !in i.title
    ensures Run(s, TitleLines(i) + rest) == Run(ParserState(s.issues + [NewIssue(i.id, i.title)], false, false), rest)
  {
    TitleStep(s, i);
    RunStep(s, TitleLine(i) + "\n", rest, ParserState(s.issues + [NewIssue(i.id, i.title)], false, false));
  }

  /** The subtitle line, if any, sets the subtitle of a record that has none yet. */
  lemma SubtitleRun(a: seq<Issue>, r: Issue, i: Issue, rest: seq<string>)
    requires r.subtitle == "" && IsTrimmed(i.subtitle)
    ensures Run(ParserState(a + [r], false, false), SubtitleLines(i) + rest)
      == Run(ParserState(a + [r.(subtitle := i.subtitle)], false, false), rest)
  {
    var s := ParserState(a + [r], false, false);
    if i.subtitle != "" {
      WithLast(a, r, r.(subtitle := i.subtitle), false, false);
      SubtitleStep(s, i.subtitle);
      RunStep(s, "## " + i.subtitle + "\n", rest, ParserState(a + [r.(subtitle := i.subtitle)], false, false));
    } else {
      assert SubtitleLines(i) + rest == rest;
      assert r.(subtitle := i.subtitle) == r;
    }
  }

  /** The blank line, the header and the separator only switch the table flag on. */
  lemma HeadRun(s: ParserState, more: seq<string>)
    requires !s.tdata
    ensures Run(s, ["\n", TableHead + "\n", TableSeparator + "\n"] + more) == Run(s.(tdata := true), more)
  {
    var l0, l1, l2 := "\n", TableHead + "\n", TableSeparator + "\n";
    ThreeLines(l0, l1, l2, more);
    BlankStep(s);
    RunStep(s, l0, [l1] + ([l2] + more), s);
    HeadStep(s);
    RunStep(s, l1, [l2] + more, s);
    SeparatorStep(s);
    RunStep(s, l2, more, s.(tdata := true));
  }

  /** The data row fills the table fields of the last record; the blank line after it changes nothing. */
  lemma RowRun(a: seq<Issue>, r: Issue, i: Issue, more: seq<string>)
    requires RowReadable(i)
    ensures Run(ParserState(a + [r], true, false), [DataRow(i) + "\n", "\n"] + more)
      == Run(ParserState(a + [WithRow(r, Fields(i))], true, true), more)
  {
    var s := ParserState(a + [r], true, false);
    var t := ParserState(a + [WithRow(r, Fields(i))], true, true);
    WithLast(a, r, WithRow(r, Fields(i)), true, false);
    RowStep(s, i);
    assert FillRow(s, Fields(i)) == t;
    TwoLines(DataRow(i) + "\n", "\n", more);
    RunStep(s, DataRow(i) + "\n", ["\n"] + more, t);
    BlankStep(t);
    RunStep(t, "\n", more, t);
  }

  /** The table lines of a readable record fill in its table fields and set both flags. */
  lemma TableRun(a: seq<Issue>, r: Issue, i: Issue, rest: seq<string>)
    requires RowReadable(i)
    ensures Run(ParserState(a + [r], false, false), TableLines(i) + rest)
      == Run(ParserState(a + [WithRow(r, Fields(i))], true, true), rest)
  {
    var more := [DataRow(i) + "\n", "\n"] + rest;
    FiveLines("\n", TableHead + "\n", TableSeparator + "\n", DataRow(i) + "\n", "\n", rest);
    HeadRun(ParserState(a + [r], false, false), more);
    RowRun(a, r, i, rest);
  }

  /** Content lines, and then whatever follows them. */
  lemma ContentThen(a: seq<Issue>, r: Issue, lines: seq<string>, rest: seq<string>)
    requires forall k :: 0 <= k < |lines| ==> BodyLine(lines[k])
    ensures Run(ParserState(a + [r], true, true), lines + rest)
      == Run(ParserState(a + [r.(content := r.content + Concat(KeptLines(lines)))], true, true), rest)
  {
    ContentRun(a, r, true, lines);
    RunAppend(ParserState(a + [r], true, true), lines, rest);
  }

  /** The fields the parser sets, in the order it sets them, rebuild the record. */
  lemma Rebuilt(i: Issue)
    ensures WithRow(NewIssue(i.id, i.title).(subtitle := i.subtitle), Fields(i)).(content := "" + Concat(KeptLines(FileLines(i.content)))) == Saved(i)
  {
    assert "" + Concat(KeptLines(FileLines(i.content))) == Saved(i).content;
  }

  /** The block of a readable record adds exactly that record, blank body lines aside, whatever came before it. */
  lemma BlockRun(s: ParserState, i: Issue, rest: seq<string>)
    requires Readable(i)
    ensures Run(s, BlockLines(i) + rest) == Run(ParserState(s.issues + [Saved(i)], true, true), rest)
  {
    var a := s.issues;
    var n := NewIssue(i.id, i.title);
    var n1 := n.(subtitle := i.subtitle);
    var n2 := WithRow(n1, Fields(i));
    var fl := FileLines(i.content);
    FourParts(TitleLines(i), SubtitleLines(i), TableLines(i), fl, rest);
    TitleRun(s, i, SubtitleLines(i) + (TableLines(i) + (fl + rest)));
    SubtitleRun(a, n, i, TableLines(i) + (fl + rest));
    TableRun(a, n1, i, fl + rest);
    ContentThen(a, n2, fl, rest);
    Rebuilt(i);
  }

  // ---------------------------------------------------------------------
  // The text of a block
  // ---------------------------------------------------------------------

  lemma ConcatOne(x: string)
    ensures Concat([x]) == x
  {
    assert [x][1..] == [];
  }

  lemma {:induction false} ConcatFive(x0: string, x1: string, x2: string, x3: string, x4: string)
    ensures Concat([x0, x1, x2, x3, x4]) == x0 + x1 + x2 + x3 + x4
  {
    var xs := [x0, x1, x2, x3, x4];
    ConcatAppend([x0, x1], [x2, x3, x4]);
    assert xs == [x0, x1] + [x2, x3, x4];
    ConcatAppend([x0], [x1]);
    assert [x0, x1] == [x0] + [x1];
    ConcatAppend([x2], [x3, x4]);
    assert [x2, x3, x4] == [x2] + [x3, x4];
    ConcatAppend([x3], [x4]);
    assert [x3, x4] == [x3] + [x4];
    ConcatOne(x0);
    ConcatOne(x1);
    ConcatOne(x2);
    ConcatOne(x3);
    ConcatOne(x4);
  }

  lemma ConcatFour(p: seq<string>, q: seq<string>, r: seq<string>, c: seq<string>)
    ensures Concat(p + q + r + c) == Concat(p) + Concat(q) + Concat(r) + Concat(c)
  {
    ConcatAppend(p + q + r, c);
    ConcatAppend(p + q, r);
    ConcatAppend(p, q);
  }

  /** The pieces of a block, regrouped the way `__str__` joins them. */
  lemma BlockAssoc(t: string, sub: string, h: string, sp: string, row: string, c: string)
    ensures (t + "\n") + sub + ("\n" + (h + "\n") + (sp + "\n") + (row + "\n") + "\n") + c
      == t + "\n" + sub + "\n" + h + "\n" + sp + "\n" + row + "\n\n" + c
  {
  }

  /** The lines of a block put back together are the text `str(issue)` gives. */
  lemma BlockText(i: Issue)
    ensures Concat(BlockLines(i)) == Render(i)
  {
    ConcatFour(TitleLines(i), SubtitleLines(i), TableLines(i), FileLines(i.content));
    ConcatOne(TitleLine(i) + "\n");
    if i.subtitle != "" {
      ConcatOne("## " + i.subtitle + "\n");
    }
    ConcatFive("\n", TableHead + "\n", TableSeparator + "\n", DataRow(i) + "\n", "\n");
    RenderLayout(i);
    BlockAssoc(TitleLine(i), if i.subtitle != "" then "## " + i.subtitle + "\n" else "",
      TableHead, TableSeparator, DataRow(i), i.content);
  }

  // ---------------------------------------------------------------------
  // The lines of a block
  // ---------------------------------------------------------------------

  /** A whole line: non-empty, ended by its only line break, with no carriage return. */
  predicate FullLine(line: string) {
    IsLine(line) && EndsLine(line) && '\r' !in line
  }

  predicate AllFull(lines: seq<string>) {
    forall k :: 0 <= k < |lines| ==> FullLine(lines[k])
  }

  /** A one-line text with its line break is a whole line. */
  lemma FullLineOf(x: string)
    requires SingleLine(x)
    ensures FullLine(x + "\n")
  {
    assert (x + "\n")[..|x|] == x;
  }

  lemma AllFullAppend(a: seq<string>, b: seq<string>)
    requires AllFull(a) && AllFull(b)
    ensures AllFull(a + b)
  {
    forall k | 0 <= k < |a + b| ensures FullLine((a + b)[k]) {
      if k >= |a| {
        assert (a + b)[k] == b[k - |a|];
      }
    }
  }

  /** Whole lines are lines as a file reader yields them. */
  lemma FullAreLines(lines: seq<string>)
    requires AllFull(lines)
    ensures AreLines(lines)
  {
  }

  /** Whole lines put together hold no carriage return. */
  lemma {:induction false} FullHasNoReturn(lines: seq<string>)
    requires AllFull(lines)
    ensures '\r' !in Concat(lines)
    decreases |lines|
  {
    if lines != [] {
      FullHasNoReturn(lines[1..]);
    }
  }

  /** The title line holds no line break: the id is digits and the title is one line. */
  lemma TitleFull(i: Issue)
    requires i.id >= 0 && SingleLine(i.title)
    ensures AllFull(TitleLines(i))
  {
    var d := IntText(i.id);
    assert AllDigits(d);
    assert '\n' !in d && '\r' !in d;
    FullLineOf(TitleLine(i));
  }

  lemma SubtitleFull(i: Issue)
    requires SingleLine(i.subtitle)
    ensures AllFull(SubtitleLines(i))
  {
    if i.subtitle != "" {
      FullLineOf("## " + i.subtitle);
    }
  }

  lemma HeadFull()
    ensures FullLine(TableHead + "\n")
  {
    HeadAvoids('\n');
    HeadAvoids('\r');
    FullLineOf(TableHead);
  }

  lemma SeparatorFull()
    ensures FullLine(TableSeparator + "\n")
  {
    SeparatorAvoids('\n');
    SeparatorAvoids('\r');
    FullLineOf(TableSeparator);
  }

  lemma RowFull(i: Issue)
    requires RowReadable(i)
    ensures FullLine(DataRow(i) + "\n")
  {
    RowSingleLine(i);
    FullLineOf(DataRow(i));
  }

  lemma FiveFull(x0: string, x1: string, x2: string, x3: string, x4: string)
    requires FullLine(x0) && FullLine(x1) && FullLine(x2) && FullLine(x3) && FullLine(x4)
    ensures AllFull([x0, x1, x2, x3, x4])
  {
  }

  lemma TableFullOf(row: string)
    requires FullLine(row)
    ensures AllFull(["\n", TableHead + "\n", TableSeparator + "\n", row, "\n"])
  {
    HeadFull();
    SeparatorFull();
    FullLineOf("");
    assert "" + "\n" == "\n";
    FiveFull("\n", TableHead + "\n", TableSeparator + "\n", row, "\n");
  }

  lemma TableFull(i: Issue)
    requires RowReadable(i)
    ensures AllFull(TableLines(i))
  {
    RowFull(i);
    TableFullOf(DataRow(i) + "\n");
  }

  lemma ContentFull(lines: seq<string>)
    requires forall k :: 0 <= k < |lines| ==> BodyLine(lines[k])
    ensures AllFull(lines)
  {
    forall k | 0 <= k < |lines| ensures FullLine(lines[k]) {
      var line := lines[k];
      if line == "\n" {
        FullLineOf("");
        assert "" + "\n" == "\n";
      } else {
        assert line[..|line| - 1] == line[..|line| - 1];
      }
    }
  }

  /** Every line of a readable record's block is a whole line. */
  lemma BlockFull(i: Issue)
    requires Readable(i)
    ensures AllFull(BlockLines(i))
  {
    TitleFull(i);
    SubtitleFull(i);
    TableFull(i);
    ContentFull(FileLines(i.content));
    AllFullAppend(TitleLines(i), SubtitleLines(i));
    AllFullAppend(TitleLines(i) + SubtitleLines(i), TableLines(i));
    AllFullAppend(TitleLines(i) + SubtitleLines(i) + TableLines(i), FileLines(i.content));
  }

  // ---------------------------------------------------------------------
  // The whole file
  // ---------------------------------------------------------------------

  /** The lines of a dumped file: each record's block in turn. */
  function DumpLines(issues: seq<Issue>): seq<string> {
    if issues == [] then [] else BlockLines(issues[0]) + DumpLines(issues[1..])
  }

  /** The dumped lines are the dumped text cut at its line breaks. */
  lemma {:induction false} DumpText(issues: seq<Issue>)
    ensures Concat(DumpLines(issues)) == Dump(issues)
  {
    if issues != [] {
      DumpText(issues[1..]);
      BlockText(issues[0]);
      ConcatAppend(BlockLines(issues[0]), DumpLines(issues[1..]));
    }
  }

  lemma {:induction false} DumpFull(issues: seq<Issue>)
    requires forall k :: 0 <= k < |issues| ==> Readable(issues[k])
    ensures AllFull(DumpLines(issues))
  {
    if issues != [] {
      BlockFull(issues[0]);
      DumpFull(issues[1..]);
      AllFullAppend(BlockLines(issues[0]), DumpLines(issues[1..]));
    }
  }

  lemma EmptyThen<T>(xs: seq<T>)
    ensures [] + xs == xs
  {
  }

  /** The records as the reader gives them back. */
  function SavedAll(issues: seq<Issue>): (r: seq<Issue>)
    ensures |r| == |issues|
  {
    if issues == [] then [] else [Saved(issues[0])] + SavedAll(issues[1..])
  }

  /** Reading the dumped lines appends every record, in order, to those already read. */
  lemma {:induction false} DumpRun(s: ParserState, issues: seq<Issue>)
    requires forall k :: 0 <= k < |issues| ==> Readable(issues[k])
    ensures Run(s, DumpLines(issues)).Ok?
    ensures Run(s, DumpLines(issues)).value.issues == s.issues + SavedAll(issues)
    decreases |issues|
  {
    if issues == [] {
      assert s.issues + SavedAll(issues) == s.issues;
    } else {
      var t := ParserState(s.issues + [Saved(issues[0])], true, true);
      BlockRun(s, issues[0], DumpLines(issues[1..]));
      DumpRun(t, issues[1..]);
      HeadThenRest(s.issues, Saved(issues[0]), SavedAll(issues[1..]));
    }
  }

  lemma HeadThenRest<T>(a: seq<T>, x: T, xs: seq<T>)
    ensures a + [x] + xs == a + ([x] + xs)
  {
  }

  /** A text made of whole lines reads as the loop over those lines. */
  lemma ParseOfLines(lines: seq<string>, issues: seq<Issue>)
    requires AllFull(lines)
    requires Run(Start, lines).Ok? && Run(Start, lines).value.issues == issues
    ensures ParseText(Concat(lines)) == Ok(issues)
  {
    FullAreLines(lines);
    FullHasNoReturn(lines);
    FileLinesOfLines(lines);
  }

  /**
   * The round trip of the store: every record that can be written is read
   * back with every field equal, except that the blank lines of its body
   * are dropped, and the records come back in the order they were written.
   */
  lemma DumpParses(issues: seq<Issue>)
    requires forall k :: 0 <= k < |issues| ==> Readable(issues[k])
    ensures ParseText(Dump(issues)) == Ok(SavedAll(issues))
  {
    DumpText(issues);
    DumpFull(issues);
    DumpRun(Start, issues);
    EmptyThen(SavedAll(issues));
    ParseOfLines(DumpLines(issues), SavedAll(issues));
  }

  // ---------------------------------------------------------------------
  // Bodies without blank lines, and a second round trip
  // ---------------------------------------------------------------------

  /** A body whose lines are all content lines keeps every line. */
  lemma {:induction false} KeptNone(lines: seq<string>)
    requires forall k :: 0 <= k < |lines| ==> ContentLine(lines[k])
    ensures KeptLines(lines) == lines
    decreases |lines|
  {
    if lines != [] {
      assert lines[0] != "\n";
      KeptNone(lines[1..]);
      assert lines == [lines[0]] + lines[1..];
    }
  }

  /** The kept lines are content lines. */
  lemma {:induction false} KeptAreContent(lines: seq<string>)
    requires forall k :: 0 <= k < |lines| ==> BodyLine(lines[k])
    ensures forall k :: 0 <= k < |KeptLines(lines)| ==> ContentLine(KeptLines(lines)[k])
    decreases |lines|
  {
    if lines != [] {
      KeptAreContent(lines[1..]);
      var head := if lines[0] == "\n" then [] else [lines[0]];
      assert KeptLines(lines) == head + KeptLines(lines[1..]);
    }
  }

  /** A body without blank lines comes back as it was. */
  lemma SavedCanonical(i: Issue)
    requires forall k :: 0 <= k < |FileLines(i.content)| ==> ContentLine(FileLines(i.content)[k])
    ensures Saved(i) == i
  {
    KeptNone(FileLines(i.content));
  }

  lemma {:induction false} SavedAllSame(issues: seq<Issue>)
    requires forall k :: 0 <= k < |issues| ==> Saved(issues[k]) == issues[k]
    ensures SavedAll(issues) == issues
    decreases |issues|
  {
    if issues != [] {
      SavedAllSame(issues[1..]);
      assert issues == [issues[0]] + issues[1..];
    }
  }

  /** Records whose bodies have no blank lines come back exactly. */
  lemma DumpParsesExactly(issues: seq<Issue>)
    requires forall k :: 0 <= k < |issues| ==> Readable(issues[k])
    requires forall k :: 0 <= k < |issues| ==>
      forall j :: 0 <= j < |FileLines(issues[k].content)| ==> ContentLine(FileLines(issues[k].content)[j])
    ensures ParseText(Dump(issues)) == Ok(issues)
  {
    forall k | 0 <= k < |issues| ensures Saved(issues[k]) == issues[k] {
      SavedCanonical(issues[k]);
    }
    SavedAllSame(issues);
    DumpParses(issues);
  }

  /** The lines of a body that was read back are its kept lines. */
  lemma SavedLines(i: Issue)
    requires Readable(i)
    ensures FileLines(Saved(i).content) == KeptLines(FileLines(i.content))
    ensures forall k :: 0 <= k < |FileLines(Saved(i).content)| ==> ContentLine(FileLines(Saved(i).content)[k])
  {
    var kept := KeptLines(FileLines(i.content));
    KeptAreContent(FileLines(i.content));
    ContentFull(kept);
    FullAreLines(kept);
    FileLinesOfLines(kept);
  }

  /** A record that was read back can be written again, and reading it again changes nothing. */
  lemma SavedStable(i: Issue)
    requires Readable(i)
    ensures Readable(Saved(i)) && Saved(Saved(i)) == Saved(i)
  {
    SavedLines(i);
    KeptNone(FileLines(Saved(i).content));
  }

  lemma {:induction false} SavedAllStable(issues: seq<Issue>)
    requires forall k :: 0 <= k < |issues| ==> Readable(issues[k])
    ensures forall k :: 0 <= k < |SavedAll(issues)| ==> Readable(SavedAll(issues)[k])
    ensures SavedAll(SavedAll(issues)) == SavedAll(issues)
    decreases |issues|
  {
    if issues != [] {
      SavedStable(issues[0]);
      SavedAllStable(issues[1..]);
      var r := SavedAll(issues);
      assert r == [Saved(issues[0])] + SavedAll(issues[1..]);
      assert r[0] == Saved(issues[0]) && r[1..] == SavedAll(issues[1..]);
    }
  }

  /** Writing what was read and reading it again gives the same records: the store is stable after one round. */
  lemma DumpStable(issues: seq<Issue>)
    requires forall k :: 0 <= k < |issues| ==> Readable(issues[k])
    ensures ParseText(Dump(SavedAll(issues))) == Ok(SavedAll(issues))
  {
    SavedAllStable(issues);
    DumpParses(SavedAll(issues));
  }
}
