/**
 * The Markdown "ToDo" document: the line classifier, the codecs that read
 * the fields of a record back from its block, and the single-pass parser
 * that turns the lines of a document into a list of records.
 */
module Markdown {
  import opened Results
  import opened Text
  import opened Dates
  import opened Issues

  // ---------------------------------------------------------------------
  // The line classifier (`parse_line`)
  // ---------------------------------------------------------------------

  datatype Tag = Unknown | Empty | H1 | H2 | H3 | TData | TSep | P | Li

  predicate AllDashes(s: string) {
    forall k :: 0 <= k < |s| ==> s[k] == '-'
  }

  /**
   * `\|\s+-+\s+\|` matches at the start of the line with its runs
   * line[1..p], line[p..q], line[q..k] and its closing bar at line[k].
   */
  predicate SeparatorRowAt(line: string, p: nat, q: nat, k: nat) {
    && 1 < p < q < k < |line| && line[0] == '|' && line[k] == '|'
    && AllSpace(line[1..p]) && AllDashes(line[p..q]) && AllSpace(line[q..k])
  }

  /** `re.match(r"\|\s+-+\s+\|", line)`. */
  predicate MatchesSeparatorRow(line: string) {
    exists p: nat, q: nat, k: nat | p < |line| && q < |line| && k < |line| :: SeparatorRowAt(line, p, q, k)
  }

  /**
   * `\|\s+.*?\s+\|` matches at the start of the line with its runs
   * line[1..p], line[p..q], line[q..k]; `.` does not match a newline.
   */
  predicate DataRowAt(line: string, p: nat, q: nat, k: nat) {
    && 1 < p <= q < k < |line| && line[0] == '|' && line[k] == '|'
    && AllSpace(line[1..p]) && '\n' !in line[p..q] && AllSpace(line[q..k])
  }

  /** `re.match(r"\|\s+.*?\s+\|", line)`. */
  predicate MatchesDataRow(line: string) {
    exists p: nat, q: nat, k: nat | p < |line| && q < |line| && k < |line| :: DataRowAt(line, p, q, k)
  }

  /** `re.match(r"^\w+", line)`. */
  predicate StartsWithWord(line: string) {
    |line| > 0 && IsWordChar(line[0])
  }

  /** `parse_line`: the tests in the order of the source; the first one that passes decides. */
  function ParseLine(line: string): Tag {
    if StartsWith(line, "# ") then H1
    else if StartsWith(line, "## ") then H2
    else if StartsWith(line, "### ") then H3
    else if MatchesSeparatorRow(line) then TSep
    else if MatchesDataRow(line) then TData
    else if Trim(line) == "" then Empty
    else if StartsWithWord(line) then P
    else if StartsWith(line, "- ") then Li
    else Unknown
  }

  /**
   * What each tag means on its own: the tests exclude each other except the
   * two table patterns, where the separator pattern is tested first.
   */
  lemma ClassifierPrecedence(line: string)
    ensures ParseLine(line) == H1 <==> StartsWith(line, "# ")
    ensures ParseLine(line) == H2 <==> StartsWith(line, "## ")
    ensures ParseLine(line) == H3 <==> StartsWith(line, "### ")
    ensures ParseLine(line) == TSep <==> MatchesSeparatorRow(line)
    ensures ParseLine(line) == TData <==> MatchesDataRow(line) && !MatchesSeparatorRow(line)
    ensures ParseLine(line) == Empty <==> Trim(line) == ""
    ensures ParseLine(line) == P <==> StartsWithWord(line)
    ensures ParseLine(line) == Li <==> StartsWith(line, "- ")
  {
    LineStarts(line);
    TableStarts(line);
    NotBlank(line);
    if line != "" {
      LeadChar(line[0]);
    }
  }

  /** The first characters the tests look at are not whitespace, and only the word characters start a paragraph. */
  lemma LeadChar(c: char)
    ensures IsWordChar(c) ==> !IsSpace(c) && c != '#' && c != '|' && c != '-'
    ensures c == '-' || c == '#' || c == '|' ==> !IsSpace(c) && !IsWordChar(c)
  {
  }

  /** What the tests of the classifier say about the first characters of a line. */
  lemma LineStarts(line: string)
    ensures StartsWith(line, "# ") ==> line[0] == '#' && line[1] == ' '
    ensures StartsWith(line, "## ") ==> line[0] == '#' && line[1] == '#' && line[2] == ' '
    ensures StartsWith(line, "### ") ==> line[0] == '#' && line[1] == '#' && line[2] == '#'
    ensures StartsWith(line, "- ") ==> line[0] == '-'
  {
  }

  /** Both table patterns start with a bar. */
  lemma TableStarts(line: string)
    ensures MatchesSeparatorRow(line) || MatchesDataRow(line) ==> line[0] == '|'
  {
    if MatchesSeparatorRow(line) {
      var p: nat, q: nat, k: nat :| p < |line| && q < |line| && k < |line| && SeparatorRowAt(line, p, q, k);
    }
    if MatchesDataRow(line) {
      var p: nat, q: nat, k: nat :| p < |line| && q < |line| && k < |line| && DataRowAt(line, p, q, k);
    }
  }

  /** A line whose first character is not whitespace is not blank. */
  lemma NotBlank(line: string)
    ensures |line| > 0 && !IsSpace(line[0]) ==> Trim(line) != ""
  {
    TrimEmpty(line);
  }

  /** A line that starts with a dash and a space is a list item. */
  lemma ItemLine(line: string)
    requires StartsWith(line, "- ")
    ensures ParseLine(line) == Li
  {
    ClassifierPrecedence(line);
  }

  /** A separator row also fits the data-row pattern: only the order of the tests keeps it a separator. */
  lemma SeparatorRowIsDataRow(line: string)
    requires MatchesSeparatorRow(line)
    ensures MatchesDataRow(line)
  {
    var p: nat, q: nat, k: nat :| p < |line| && q < |line| && k < |line| && SeparatorRowAt(line, p, q, k);
    assert '\n' !in line[p..q] by {
      assert forall j :: p <= j < q ==> line[j] == line[p..q][j - p];
    }
    assert DataRowAt(line, p, q, k);
  }

  /**
   * A line whose opening bar is followed by spaces up to index j and then by
   * a character that is neither a space nor a dash is not a separator row.
   */
  lemma NotSeparatorRow(line: string, j: nat)
    requires 1 < j < |line| && AllSpace(line[1..j])
    requires !IsSpace(line[j]) && line[j] != '-'
    ensures !MatchesSeparatorRow(line)
  {
    forall p: nat, q: nat, k: nat | p < |line| && q < |line| && k < |line|
      ensures !SeparatorRowAt(line, p, q, k)
    {
      if 1 < p < q {
        if p < j {
          assert line[1..j][p - 1] == line[p] == line[p..q][0];
        } else if p == j {
          assert line[p..q][0] == line[j];
        } else {
          assert line[1..p][j - 1] == line[j];
        }
      }
    }
  }

  /** A line that starts with a word character is a paragraph line. */
  lemma WordLine(line: string)
    requires StartsWithWord(line)
    ensures ParseLine(line) == P
  {
    ClassifierPrecedence(line);
  }

  /** A `#` followed by neither a space nor another `#` is no heading, and nothing else either. */
  lemma HashLine(line: string)
    requires |line| > 1 && line[0] == '#' && line[1] != ' ' && line[1] != '#'
    ensures ParseLine(line) == Unknown
  {
    HashTests(line);
    ClassifierPrecedence(line);
  }

  /** None of the classifier's tests passes for such a line. */
  lemma HashTests(line: string)
    requires |line| > 1 && line[0] == '#' && line[1] != ' ' && line[1] != '#'
    ensures !StartsWith(line, "# ") && !StartsWith(line, "## ") && !StartsWith(line, "### ")
    ensures !MatchesSeparatorRow(line) && !MatchesDataRow(line)
    ensures Trim(line) != "" && !StartsWithWord(line) && !StartsWith(line, "- ")
  {
    LineStarts(line);
    TableStarts(line);
    NotBlank(line);
    LeadChar(line[0]);
  }

  /** The classifier examples for headings, and an added case: a `#` that starts no heading. */
  lemma HeadingLineExamples()
    ensures ParseLine("# 1 - Title") == H1
    ensures ParseLine("## Subtitle") == H2
    ensures ParseLine("### Sub-Subtitle") == H3
    ensures ParseLine("#nospace") == Unknown
  {
    assert ParseLine("# 1 - Title") == H1 by {
      assert StartsWith("# 1 - Title", "# ");
    }
    assert ParseLine("## Subtitle") == H2 by {
      assert StartsWith("## Subtitle", "## ");
      LineStarts("## Subtitle");
    }
    assert ParseLine("### Sub-Subtitle") == H3 by {
      assert StartsWith("### Sub-Subtitle", "### ");
      LineStarts("### Sub-Subtitle");
    }
    assert ParseLine("#nospace") == Unknown by {
      HashLine("#nospace");
    }
  }

  /** The classifier example for a separator row. */
  lemma SeparatorLineExample()
    ensures ParseLine("| --- | --- | --- |") == TSep
  {
    var sep := "| --- | --- | --- |";
    assert sep[1..2] == " " && sep[2..5] == "---" && sep[5..6] == " ";
    assert SeparatorRowAt(sep, 2, 5, 6);
    LineStarts(sep);
  }

  /**
   * A line that opens with a bar and some whitespace up to index p, where a
   * character that is neither whitespace nor a dash follows, and that closes
   * with whitespace and a bar at index k, all on one line, is a data row.
   */
  lemma DataRowLine(line: string, p: nat, k: nat)
    requires 1 < p < k - 1 && k < |line| && line[0] == '|' && line[k] == '|'
    requires AllSpace(line[1..p]) && !IsSpace(line[p]) && line[p] != '-' && IsSpace(line[k - 1])
    requires '\n' !in line[..k]
    ensures ParseLine(line) == TData
  {
    assert '\n' !in line[p..k - 1] by {
      assert forall j :: p <= j < k - 1 ==> line[p..k - 1][j - p] == line[..k][j];
    }
    assert AllSpace(line[k - 1..k]) by {
      assert line[k - 1..k][0] == line[k - 1];
    }
    assert DataRowAt(line, p, k - 1, k);
    NotSeparatorRow(line, p);
    LineStarts(line);
    TableStarts(line);
  }

  /** The classifier example for a data row: it is not a separator row. */
  lemma DataLineExample()
    ensures ParseLine("| Data1 | Data2 | Data3 |") == TData
  {
    var row := "| Data1 | Data2 | Data3 |";
    assert row[1] == ' ' && row[23] == ' ';
    assert row[1..2] == [row[1]];
    assert row[..24] == "| Data1 | Data2 | Data3 ";
    DataRowLine(row, 2, 24);
  }

  /** A line of whitespace only is an empty line. */
  lemma BlankLine(line: string)
    requires AllSpace(line)
    ensures ParseLine(line) == Empty
  {
    BlankTests(line);
    TrimEmpty(line);
    ClassifierPrecedence(line);
  }

  /** Such a line fails the heading and table tests. */
  lemma BlankTests(line: string)
    requires AllSpace(line)
    ensures !StartsWith(line, "# ") && !StartsWith(line, "## ") && !StartsWith(line, "### ")
    ensures !MatchesSeparatorRow(line) && !MatchesDataRow(line)
  {
    if |line| > 0 {
      assert IsSpace(line[0]);
    }
    LineStarts(line);
    TableStarts(line);
  }

  /** The classifier examples for blank lines. */
  lemma BlankLineExamples(line: string)
    requires line == "" || line == " " || line == "\t"
    ensures ParseLine(line) == Empty
  {
    assert AllSpace(line);
    BlankLine(line);
  }

  /** The classifier examples for paragraphs. */
  lemma WordLineExamples(line: string)
    requires line == "ABC" || line == "123"
    ensures ParseLine(line) == P
  {
    assert StartsWithWord(line);
    WordLine(line);
  }

  /** The classifier example for a list item. */
  lemma ItemLineExample(line: string)
    requires line == "- [ ] List item"
    ensures ParseLine(line) == Li
  {
    assert StartsWith(line, "- ");
    ItemLine(line);
  }

  // ---------------------------------------------------------------------
  // Headings and table cells
  // ---------------------------------------------------------------------

  /**
   * `parse_h1`: drop the first character, split on every `-`, unpack into
   * exactly two parts and read the left one as an integer.
   */
  function ParseH1(line: string): (r: Result<(int, string)>)
    ensures '-' !in line ==> r == Err(HeadingFormat)
    ensures r.Ok? ==> r.value.0 >= 0
    ensures r.Ok? ==> IsTrimmed(r.value.1) && '-' !in r.value.1
  {
    var parts := Split(Drop(line, 1), '-');
    assert '-' !in line ==> '-' !in Drop(line, 1);
    if |parts| != 2 then Err(HeadingFormat)
    else
      var left := Trim(parts[0]);
      var title := Trim(parts[1]);
      assert '-' !in left && '-' !in title by {
        if '-' in left {
          TrimSubset(parts[0], '-');
        }
        if '-' in title {
          TrimSubset(parts[1], '-');
        }
      }
      ParseIntNoSign(left);
      var id :- ParseInt(left);
      Ok((id, title))
  }

  /** `int()` of text without a minus sign is never negative. */
  lemma ParseIntNoSign(text: string)
    requires '-' !in text
    ensures ParseInt(text).Ok? ==> ParseInt(text).value >= 0
  {
    var t := Trim(text);
    if t != "" && t[0] == '-' {
      TrimSubset(text, '-');
    }
  }

  /** `parse_h2`: drop two characters and strip. */
  function ParseH2(line: string): (r: string)
    ensures IsTrimmed(r)
  {
    Trim(Drop(line, 2))
  }

  /** `parse_h3`: drop three characters and strip. */
  function ParseH3(line: string): (r: string)
    ensures IsTrimmed(r)
  {
    Trim(Drop(line, 3))
  }

  /** A heading whose text after the first character has exactly one dash splits there. */
  lemma H1OneDash(line: string, left: string, right: string)
    requires Drop(line, 1) == left + "-" + right && '-' !in left && '-' !in right
    requires ParseInt(Trim(left)).Ok?
    ensures ParseH1(line) == Ok((ParseInt(Trim(left)).value, Trim(right)))
  {
    SplitOnce(left, right, '-');
    assert Drop(line, 1) == left + ['-'] + right;
  }

  /** The digits of a natural number are trimmed and hold no dash. */
  lemma DecimalShape(n: nat)
    ensures IsTrimmed(Decimal(n)) && '-' !in Decimal(n) && AllDigits(Decimal(n))
  {
    var d := Decimal(n);
    assert forall k :: 0 <= k < |d| ==> IsDigit(d[k]);
    assert IsDigit(d[0]) && IsDigit(d[|d| - 1]);
  }

  /** `parse_h1` reads back the heading that `_md_title` writes when the id is not negative and the title has no dash. */
  lemma H1CodecInverts(id: nat, title: string, end: string)
    requires IsTrimmed(title) && '-' !in title && AllSpace(end)
    ensures ParseH1("# " + IntText(id) + " - " + title + end) == Ok((id, title))
  {
    var d := Decimal(id);
    DecimalShape(id);
    ParseIntDigitsOnly(d);
    DigitsValueOfDecimal(id);
    H1Digits(d, id, title, end);
  }

  /** A heading whose id is written in digits (no sign, no dash) reads back as that id and the title. */
  lemma H1Digits(d: string, id: int, title: string, end: string)
    requires IsTrimmed(d) && '-' !in d && ParseInt(d) == Ok(id)
    requires IsTrimmed(title) && '-' !in title && AllSpace(end)
    ensures ParseH1("# " + d + " - " + title + end) == Ok((id, title))
  {
    H1Pieces(d, title, end);
    PaddedSide(" ", d, " ");
    PaddedSide(" ", title, end);
    H1OneDash("# " + d + " - " + title + end, " " + d + " ", " " + title + end);
  }

  /** A dash-free text padded with spaces has no dash and trims back to itself. */
  lemma PaddedSide(a: string, x: string, b: string)
    requires AllSpace(a) && AllSpace(b) && IsTrimmed(x) && '-' !in x
    ensures '-' !in a + x + b && Trim(a + x + b) == x
  {
    NoDashInSpace(a);
    NoDashInSpace(b);
    TrimPadded(a, x, b);
  }

  lemma NoDashInSpace(s: string)
    requires AllSpace(s)
    ensures '-' !in s
  {
    assert forall k :: 0 <= k < |s| ==> IsSpace(s[k]);
  }

  /** The heading after its first character: the id and the title on either side of the dash. */
  lemma H1Pieces(d: string, title: string, end: string)
    ensures Drop("# " + d + " - " + title + end, 1) == (" " + d + " ") + "-" + (" " + title + end)
  {
  }

  /**
   * A negative id or a dash in the title puts a second dash into the
   * heading, so `parse_h1` cannot unpack it into two parts.
   */
  lemma H1DashUnreadable(id: int, title: string, end: string)
    requires id < 0 || '-' in title
    ensures ParseH1("# " + IntText(id) + " - " + title + end) == Err(HeadingFormat)
  {
    var t := IntText(id);
    var line := "# " + t + " - " + title + end;
    var rest := Drop(line, 1);
    var left := " " + t + " ";
    var right := " " + title + end;
    assert rest == left + "-" + right;
    assert multiset(rest) == multiset(left) + multiset("-") + multiset(right);
    assert multiset(left) == multiset(" ") + multiset(t) + multiset(" ");
    assert multiset(right) == multiset(" ") + multiset(title) + multiset(end);
    if id < 0 {
      assert t[0] == '-';
    }
    SplitCount(rest, '-');
  }

  /** `parse_h2` reads back the subtitle line that `_md_subtitle` writes. */
  lemma H2CodecInverts(subtitle: string, end: string)
    requires IsTrimmed(subtitle) && AllSpace(end)
    ensures ParseH2("## " + subtitle + end) == subtitle
  {
    assert Drop("## " + subtitle + end, 2) == " " + subtitle + end;
    TrimPadded(" ", subtitle, end);
  }

  /** `"# 1 - Title"` gives the id 1 and the title `"Title"`. */
  lemma H1Example(line: string)
    requires line == "# 1 - Title"
    ensures ParseH1(line) == Ok((1, "Title"))
  {
    assert line == "# " + IntText(1) + " - " + "Title" + "";
    H1CodecInverts(1, "Title", "");
  }

  /**
   * The outcomes of `parse_h1`: anything but exactly two parts after the marker fails the
   * unpack; two parts succeed exactly when `int()` accepts the stripped left part, and
   * otherwise raise its error.
   */
  lemma H1Outcome(line: string)
    ensures |Split(Drop(line, 1), '-')| != 2 ==> ParseH1(line) == Err(HeadingFormat)
    ensures var parts := Split(Drop(line, 1), '-'); var r := ParseH1(line); |parts| == 2 ==>
      && (r.Ok? <==> ParseInt(Trim(parts[0])).Ok?)
      && (r.Err? ==> r == Err(InvalidInteger))
      && (r.Ok? ==> r.value == (ParseInt(Trim(parts[0])).value, Trim(parts[1])))
  {
  }

  /** An id that is not an integer makes `int()` raise. */
  lemma H1NotIntegerExample(line: string)
    requires line == "# x - Title"
    ensures ParseH1(line) == Err(InvalidInteger)
  {
    SpelledHeading(line);
    ExampleWord();
    NotIntegerAt("x", 0);
    H1WordNotInteger(line, "x", " Title");
  }

  /** The left part is one word set off by spaces, and `int()` rejects the word. */
  lemma H1WordNotInteger(line: string, w: string, b: string)
    requires IsTrimmed(w) && '-' !in w && '-' !in b && ParseInt(w).Err?
    requires line == ['#'] + ((" " + w + " ") + ['-'] + b)
    ensures ParseH1(line) == Err(InvalidInteger)
  {
    TrimPadded(" ", w, " ");
    H1NotInteger(line, " " + w + " ", b);
  }

  /** The example heading spelled as marker, padded id, dash and title. */
  lemma SpelledHeading(line: string)
    requires line == "# x - Title"
    ensures line == ['#'] + ((" " + "x" + " ") + ['-'] + " Title")
  {
    var heading := ['#'] + ((" " + "x" + " ") + ['-'] + " Title");
    assert forall k :: 0 <= k < |line| ==> line[k] == heading[k];
  }

  /** The example's id is trimmed, and neither the id nor the title holds a dash. */
  lemma ExampleWord()
    ensures IsTrimmed("x") && '-' !in "x" && '-' !in " Title"
  {
  }

  /** One dash, and a left part that `int()` rejects: the heading raises. */
  lemma H1NotInteger(line: string, a: string, b: string)
    requires '-' !in a && '-' !in b && line == ['#'] + (a + ['-'] + b)
    requires ParseInt(Trim(a)).Err?
    ensures ParseH1(line) == Err(InvalidInteger)
  {
    DropMarker('#', a + ['-'] + b);
    SplitAtFirst(a, b, '-');
    assert Split(Drop(line, 1), '-') == [a, b];
  }

  /** Dropping the first character of a text leaves the rest. */
  lemma DropMarker(c: char, rest: string)
    ensures Drop([c] + rest, 1) == rest
  {
    assert ([c] + rest)[1..] == rest;
  }

  /** A second dash in the title makes the heading unreadable. */
  lemma H1DashExample()
    ensures ParseH1("# 1 - A-B") == Err(HeadingFormat)
  {
    assert "A-B"[1] == '-';
    H1DashUnreadable(1, "A-B", "");
    assert "# " + IntText(1) + " - " + "A-B" + "" == "# 1 - A-B";
  }

  /** `"## Subtitle"` gives `"Subtitle"`. */
  lemma H2Example(line: string)
    requires line == "## Subtitle"
    ensures ParseH2(line) == "Subtitle"
  {
    assert line == "## " + "Subtitle" + "";
    H2CodecInverts("Subtitle", "");
  }

  /** `"### Sub-Subtitle"` gives `"Sub-Subtitle"`: only `h1` lines are split on dashes. */
  lemma H3Example()
    ensures ParseH3("### Sub-Subtitle") == "Sub-Subtitle"
  {
    assert Drop("### Sub-Subtitle", 3) == " " + "Sub-Subtitle" + "";
    TrimPadded(" ", "Sub-Subtitle", "");
  }

  /** `parse_tdata`: drop the first and the last character, split on `|` and strip every cell. */
  function ParseTData(line: string): (cells: seq<string>)
    ensures |cells| == |Split(Inner(line), '|')|
    ensures forall k :: 0 <= k < |cells| ==> cells[k] == Trim(Split(Inner(line), '|')[k])
    ensures forall k :: 0 <= k < |cells| ==> IsTrimmed(cells[k]) && '|' !in cells[k]
  {
    var parts := Split(Inner(line), '|');
    seq(|parts|, k requires 0 <= k < |parts| => TrimmedCell(parts[k]))
  }

  /** A row of three space-padded, trimmed, bar-free cells gives back those cells. */
  lemma TDataRow(line: string, x: string, y: string, z: string)
    requires IsTrimmed(x) && IsTrimmed(y) && IsTrimmed(z)
    requires '|' !in x && '|' !in y && '|' !in z
    requires line == ['|'] + ((" " + x + " ") + ['|'] + (" " + y + " ") + ['|'] + (" " + z + " ")) + ['|']
    ensures var v := ParseTData(line); |v| == 3 && v[0] == x && v[1] == y && v[2] == z
  {
    var px, py, pz := " " + x + " ", " " + y + " ", " " + z + " ";
    InnerOfFramed('|', px + ['|'] + py + ['|'] + pz, '|');
    SplitThree(px, py, pz, '|');
    TrimPadded(" ", x, " ");
    TrimPadded(" ", y, " ");
    TrimPadded(" ", z, " ");
  }

  /**
   * The same row read with its line break, as the file's lines are: the part after the
   * last bar is one more, empty, cell.
   */
  lemma TDataRowNewline(line: string, x: string, y: string, z: string)
    requires IsTrimmed(x) && IsTrimmed(y) && IsTrimmed(z)
    requires '|' !in x && '|' !in y && '|' !in z
    requires line == ['|'] + ((" " + x + " ") + ['|'] + ((" " + y + " ") + ['|'] + (" " + z + " ") + ['|'] + "")) + ['\n']
    ensures var v := ParseTData(line); |v| == 4 && v[0] == x && v[1] == y && v[2] == z && v[3] == ""
  {
    var px, py, pz := " " + x + " ", " " + y + " ", " " + z + " ";
    var rest := py + ['|'] + pz + ['|'] + "";
    InnerOfFramed('|', px + ['|'] + rest, '\n');
    SplitAtFirst(px, rest, '|');
    SplitThree(py, pz, "", '|');
    TrimPadded(" ", x, " ");
    TrimPadded(" ", y, " ");
    TrimPadded(" ", z, " ");
    TrimTrimmed("");
  }

  /** Dropping the first and last characters of a framed string leaves what they framed. */
  lemma InnerOfFramed(a: char, s: string, b: char)
    ensures Inner([a] + s + [b]) == s
  {
    assert ([a] + s + [b])[1..|s| + 1] == s;
  }

  /** The test's row gives its three cells. */
  lemma TDataExample(line: string)
    requires line == "| Data1 | Data2 | Data3 |"
    ensures var v := ParseTData(line); |v| == 3 && v[0] == "Data1" && v[1] == "Data2" && v[2] == "Data3"
  {
    var padded := ['|'] + ((" " + "Data1" + " ") + ['|'] + (" " + "Data2" + " ") + ['|'] + (" " + "Data3" + " ")) + ['|'];
    assert forall k :: 0 <= k < |line| ==> line[k] == padded[k];
    TDataRow(line, "Data1", "Data2", "Data3");
  }

  /** The test's row with a line break ends in an empty cell. */
  lemma TDataNewlineExample(line: string)
    requires line == "| Data1 | Data2 | Data3 |\n"
    ensures var v := ParseTData(line); |v| == 4 && v[0] == "Data1" && v[1] == "Data2" && v[2] == "Data3" && v[3] == ""
  {
    var padded := ['|'] + ((" " + "Data1" + " ") + ['|'] + ((" " + "Data2" + " ") + ['|'] + (" " + "Data3" + " ") + ['|'] + "")) + ['\n'];
    assert forall k :: 0 <= k < |line| ==> line[k] == padded[k];
    TDataRowNewline(line, "Data1", "Data2", "Data3");
  }

  /** One stripped cell; it still holds no bar. */
  function TrimmedCell(part: string): (r: string)
    requires '|' !in part
    ensures r == Trim(part) && '|' !in r
  {
    if '|' in Trim(part) then TrimSubset(part, '|'); "" else Trim(part)
  }

  // ---------------------------------------------------------------------
  // The field codecs
  // ---------------------------------------------------------------------

  /** `StatusEnum(text.strip())`. */
  function ParseStatus(text: string): (r: Result<Status>)
    ensures r.Ok? <==> exists s: Status :: s.Label() == Trim(text)
    ensures r.Ok? ==> r.value.Label() == Trim(text)
  {
    var t := Trim(text);
    if t == "Open" then assert Open.Label() == t; Ok(Open)
    else if t == "Test" then assert Test.Label() == t; Ok(Test)
    else if t == "Closed" then assert Closed.Label() == t; Ok(Closed)
    else if t == "Canceled" then assert Canceled.Label() == t; Ok(Canceled)
    else Err(InvalidEnumValue)
  }

  /** `PriorityEnum(text.strip())`. */
  function ParsePriority(text: string): (r: Result<Priority>)
    ensures r.Ok? <==> exists p: Priority :: p.Label() == Trim(text)
    ensures r.Ok? ==> r.value.Label() == Trim(text)
  {
    var t := Trim(text);
    if t == "Low" then assert Low.Label() == t; Ok(Low)
    else if t == "Medium" then assert Medium.Label() == t; Ok(Medium)
    else if t == "High" then assert High.Label() == t; Ok(High)
    else if t == "Critical" then assert Critical.Label() == t; Ok(Critical)
    else Err(InvalidEnumValue)
  }

  /** `TypeEnum(text.strip())`. */
  function ParseType(text: string): (r: Result<IssueType>)
    ensures r.Ok? <==> exists t: IssueType :: t.Label() == Trim(text)
    ensures r.Ok? ==> r.value.Label() == Trim(text)
  {
    var t := Trim(text);
    if t == "Bug" then assert Bug.Label() == t; Ok(Bug)
    else if t == "Feature" then assert Feature.Label() == t; Ok(Feature)
    else if t == "Improvement" then assert Improvement.Label() == t; Ok(Improvement)
    else Err(InvalidEnumValue)
  }

  /** Labels are told apart: the status codec reads back exactly the member whose label it is given. */
  lemma StatusCodecInverts(s: Status, a: string, b: string)
    requires AllSpace(a) && AllSpace(b)
    ensures ParseStatus(a + s.Label() + b) == Ok(s)
  {
    assert IsTrimmed(s.Label());
    TrimPadded(a, s.Label(), b);
    StatusOfLabel(a + s.Label() + b, s);
  }

  lemma StatusOfLabel(text: string, s: Status)
    requires Trim(text) == s.Label()
    ensures ParseStatus(text) == Ok(s)
  {
    var t := Trim(text);
    if s == Open {
      assert t == "Open";
    } else if s == Test {
      assert t == "Test" && t[0] == 'T';
    } else if s == Closed {
      assert t == "Closed" && |t| == 6;
    } else {
      assert t == "Canceled" && |t| == 8;
    }
  }

  lemma PriorityCodecInverts(p: Priority, a: string, b: string)
    requires AllSpace(a) && AllSpace(b)
    ensures ParsePriority(a + p.Label() + b) == Ok(p)
  {
    assert IsTrimmed(p.Label());
    TrimPadded(a, p.Label(), b);
    PriorityOfLabel(a + p.Label() + b, p);
  }

  lemma PriorityOfLabel(text: string, p: Priority)
    requires Trim(text) == p.Label()
    ensures ParsePriority(text) == Ok(p)
  {
    var t := Trim(text);
    if p == Low {
      assert t == "Low";
    } else if p == Medium {
      assert t == "Medium" && |t| == 6;
    } else if p == High {
      assert t == "High" && |t| == 4;
    } else {
      assert t == "Critical" && |t| == 8;
    }
  }

  lemma TypeCodecInverts(t: IssueType, a: string, b: string)
    requires AllSpace(a) && AllSpace(b)
    ensures ParseType(a + t.Label() + b) == Ok(t)
  {
    assert IsTrimmed(t.Label());
    TrimPadded(a, t.Label(), b);
    TypeOfLabel(a + t.Label() + b, t);
  }

  lemma TypeOfLabel(text: string, t: IssueType)
    requires Trim(text) == t.Label()
    ensures ParseType(text) == Ok(t)
  {
    var u := Trim(text);
    if t == Bug {
      assert u == "Bug";
    } else if t == Feature {
      assert u == "Feature" && |u| == 7;
    } else {
      assert u == "Improvement" && |u| == 11;
    }
  }

  /** `\d+\.\d+\.\d+` matches at the start of t, its digit runs ending at i, j and k. */
  predicate VersionAt(t: string, i: nat, j: nat, k: nat) {
    && 0 < i && i + 1 < j && j + 1 < k <= |t|
    && AllDigits(t[..i]) && t[i] == '.' && AllDigits(t[i + 1..j]) && t[j] == '.' && AllDigits(t[j + 1..k])
  }

  /** `re.match(r"\d+\.\d+\.\d+", t)`. */
  predicate StartsWithVersion(t: string) {
    exists i: nat, j: nat, k: nat | i < |t| && j < |t| && k <= |t| :: VersionAt(t, i, j, k)
  }

  /** `parse_milestone`: the stripped text when it starts with a version, else `""`. */
  function ParseMilestone(text: string): (r: string)
    ensures r == "" || StartsWithVersion(r)
    ensures StartsWithVersion(Trim(text)) <==> r != ""
    ensures r != "" ==> r == Trim(text)
  {
    var t := Trim(text);
    if StartsWithVersion(t) then t else ""
  }

  /** A text that starts with a version and has no surrounding whitespace is read back unchanged. */
  lemma MilestoneCodecInverts(m: string, a: string, b: string)
    requires m == "" || (StartsWithVersion(m) && IsTrimmed(m))
    requires AllSpace(a) && AllSpace(b)
    ensures ParseMilestone(a + m + b) == m
  {
    if m == "" {
      assert a + m + b == "" + a + b;
    }
    TrimPadded(a, m, b);
  }

  /** A text that starts with a version starts with a digit and has at least five characters. */
  lemma VersionShape(t: string)
    requires StartsWithVersion(t)
    ensures |t| >= 5 && IsDigit(t[0])
  {
    var i: nat, j: nat, k: nat :| i < |t| && j < |t| && k <= |t| && VersionAt(t, i, j, k);
    assert t[..i][0] == t[0];
  }

  /** `"1.2.3"` is a milestone, with or without padding. */
  lemma MilestoneExample(t: string)
    requires t == "1.2.3"
    ensures ParseMilestone(t) == "1.2.3"
  {
    assert VersionAt(t, 1, 3, 5);
    assert t == "" + t + "";
    MilestoneCodecInverts(t, "", "");
  }

  lemma PaddedMilestoneExample(t: string)
    requires t == " 1.2.3 "
    ensures ParseMilestone(t) == "1.2.3"
  {
    var m := t[1..6];
    assert m == "1.2.3";
    assert VersionAt(m, 1, 3, 5);
    assert t == " " + m + " ";
    MilestoneCodecInverts(m, " ", " ");
  }

  /** The version only has to start the text: `"1.2.3-beta"` is kept whole. */
  lemma SuffixMilestoneExample(t: string)
    requires t == "1.2.3-beta"
    ensures ParseMilestone(t) == "1.2.3-beta"
  {
    assert VersionAt(t, 1, 3, 5);
    assert t == "" + t + "";
    MilestoneCodecInverts(t, "", "");
  }

  /** Text without a leading version gives `""`. */
  lemma NoMilestoneExamples(t: string)
    requires t == "x.y.z" || t == "xyz" || t == "1.2." || t == "1.2" || t == "1." || t == "1" || t == ""
    ensures ParseMilestone(t) == ""
  {
    NoVersion(t);
  }

  /** Milestone names that are not versions, such as `v1.0` or `beta`, also give `""`. */
  lemma NamedMilestoneExamples(t: string)
    requires t == "v1.0" || t == "beta"
    ensures ParseMilestone(t) == ""
  {
    NoVersion(t);
  }

  /** Text that is too short for a version or does not start with a digit gives `""`. */
  lemma NoVersion(t: string)
    requires IsTrimmed(t)
    requires |t| < 5 || !IsDigit(t[0])
    ensures ParseMilestone(t) == ""
  {
    TrimTrimmed(t);
    if StartsWithVersion(t) {
      VersionShape(t);
    }
  }

  /**
   * `parse_date`: no date unless the text splits on `/` into exactly three
   * parts; those are read as day, month and year.
   */
  function ParseDate(text: string): (r: Result<Option<Date>>)
    ensures |Split(text, '/')| != 3 ==> r == Ok(None)
    ensures '/' !in text ==> r == Ok(None)
    ensures r.Ok? && r.value.Some? ==> var parts := Split(text, '/');
      && ParseInt(parts[0]) == Ok(r.value.value.day)
      && ParseInt(parts[1]) == Ok(r.value.value.month)
      && ParseInt(parts[2]) == Ok(r.value.value.year)
  {
    var parts := Split(text, '/');
    if |parts| != 3 then Ok(None)
    else
      var year :- ParseInt(parts[2]);
      var month :- ParseInt(parts[1]);
      var day :- ParseInt(parts[0]);
      var d :- MakeDate(year, month, day);
      Ok(Some(d))
  }

  /** Three pieces without slashes, joined by slashes, split back into those pieces. */
  lemma SplitThree(x: string, y: string, z: string, sep: char)
    requires sep !in x && sep !in y && sep !in z
    ensures Split(x + [sep] + y + [sep] + z, sep) == [x, y, z]
  {
    assert x + [sep] + y + [sep] + z == x + [sep] + (y + [sep] + z);
    SplitAtFirst(x, y + [sep] + z, sep);
    SplitAtFirst(y, z, sep);
  }

  lemma NoSlashInDigits(s: string)
    requires AllDigits(s)
    ensures '/' !in s
  {
  }

  lemma NoSlashInSpace(s: string)
    requires AllSpace(s)
    ensures '/' !in s
  {
  }

  /** Three runs of digits between slashes are read as day, month and year, in that order. */
  lemma DateOfDigits(a: string, dd: string, mm: string, yyyy: string, b: string)
    requires AllSpace(a) && AllSpace(b)
    requires AllDigits(dd) && AllDigits(mm) && AllDigits(yyyy) && dd != "" && mm != "" && yyyy != ""
    ensures var day, month, year := DigitsValue(dd), DigitsValue(mm), DigitsValue(yyyy);
      ParseDate(a + dd + "/" + mm + "/" + yyyy + b)
      == if IsValidDate(day, month, year) then Ok(Some(CalendarDate(day, month, year))) else Err(InvalidDate)
  {
    NoSlashInDigits(dd);
    NoSlashInDigits(mm);
    NoSlashInDigits(yyyy);
    NoSlashInSpace(a);
    NoSlashInSpace(b);
    var text := a + dd + "/" + mm + "/" + yyyy + b;
    assert text == (a + dd) + ['/'] + mm + ['/'] + (yyyy + b);
    SplitThree(a + dd, mm, yyyy + b, '/');
    ParseIntDigitsBefore(a, dd);
    ParseIntDigitsOnly(mm);
    ParseIntDigitsAfter(yyyy, b);
  }

  /** The date codec inverts the `dd/mm/yyyy` encoding, with or without surrounding whitespace. */
  lemma DateCodecInverts(d: Option<Date>, a: string, b: string)
    requires AllSpace(a) && AllSpace(b)
    ensures ParseDate(a + DateText(d) + b) == Ok(d)
  {
    if d.Some? {
      assert DateText(d) == FormatDate(d.value);
      DateCodecSome(d.value, a, b);
    } else {
      assert a + DateText(d) + b == a + b;
      NoSlashInSpace(a + b);
    }
  }

  lemma DateCodecSome(x: Date, a: string, b: string)
    requires AllSpace(a) && AllSpace(b)
    ensures ParseDate(a + FormatDate(x) + b) == Ok(Some(x))
  {
    var dd, mm, yyyy := ZeroPad(x.day, 2), ZeroPad(x.month, 2), ZeroPad(x.year, 4);
    assert a + FormatDate(x) + b == a + dd + "/" + mm + "/" + yyyy + b;
    ZeroPadValue(x.day, 2);
    ZeroPadValue(x.month, 2);
    ZeroPadValue(x.year, 4);
    DateOfDigits(a, dd, mm, yyyy, b);
  }

  /** `"01/02/1987"` is the first of February 1987: day first. */
  lemma DateExample(text: string)
    requires text == "01/02/1987"
    ensures ParseDate(text) == Ok(Some(CalendarDate(1, 2, 1987)))
  {
    var d := Some(CalendarDate(1, 2, 1987));
    assert text == "" + DateText(d) + "";
    DateCodecInverts(d, "", "");
  }

  /** Fewer than two slashes: no date. */
  lemma NoDateExamples(text: string)
    requires text == "" || text == "09/02"
    ensures ParseDate(text) == Ok(None)
  {
    SplitCount(text, '/');
    assert multiset(text)['/'] <= 1;
  }

  /**
   * The outcomes of `parse_date` on three parts: never "no date"; a date exactly when all
   * three parts are integers that make a valid calendar date; the integer error when one
   * of them is not an integer.
   */
  lemma DateOutcome(text: string)
    ensures var parts := Split(text, '/'); var r := ParseDate(text); |parts| == 3 ==>
      && r != Ok(None)
      && (r.Ok? <==> ParseInt(parts[0]).Ok? && ParseInt(parts[1]).Ok? && ParseInt(parts[2]).Ok?
                     && IsValidDate(ParseInt(parts[0]).value, ParseInt(parts[1]).value, ParseInt(parts[2]).value))
      && (!(ParseInt(parts[0]).Ok? && ParseInt(parts[1]).Ok? && ParseInt(parts[2]).Ok?) ==> r == Err(InvalidInteger))
  {
    var parts := Split(text, '/');
    if |parts| == 3 && ParseInt(parts[0]).Ok? && ParseInt(parts[1]).Ok? && ParseInt(parts[2]).Ok? {
      var d := MakeDate(ParseInt(parts[2]).value, ParseInt(parts[1]).value, ParseInt(parts[0]).value);
      assert ParseDate(text) == if d.Ok? then Ok(Some(d.value)) else Err(d.error);
    }
  }

  /** Three parts that are not integers make `int()` raise. */
  lemma DateNotIntegerExample(text: string)
    requires text == "aa/bb/cc"
    ensures ParseDate(text) == Err(InvalidInteger)
  {
    var parts := "aa" + ['/'] + "bb" + ['/'] + "cc";
    assert forall k :: 0 <= k < |text| ==> text[k] == parts[k];
    NotIntegerAt("cc", 0);
    DateNotInteger(text, "aa", "bb", "cc");
  }

  /** Three parts, the last of which `int()` rejects: the date raises before the others are read. */
  lemma DateNotInteger(text: string, x: string, y: string, z: string)
    requires '/' !in x && '/' !in y && '/' !in z && text == x + ['/'] + y + ['/'] + z
    requires ParseInt(z).Err?
    ensures ParseDate(text) == Err(InvalidInteger)
  {
    SplitThree(x, y, z, '/');
  }

  /** Three numbers that make no calendar date raise. */
  lemma InvalidDateExample(text: string)
    requires text == "31/02/2023"
    ensures ParseDate(text) == Err(InvalidDate)
  {
    assert text == "" + "31" + "/" + "02" + "/" + "2023" + "";
    assert "31"[..1] == "3" && "02"[..1] == "0";
    assert "2023"[..3] == "202" && "202"[..2] == "20" && "20"[..1] == "2";
    assert DigitsValue("3") == 3 && DigitsValue("0") == 0 && DigitsValue("2") == 2;
    assert DigitsValue("31") == 31 && DigitsValue("02") == 2;
    assert DigitsValue("20") == 20 && DigitsValue("202") == 202 && DigitsValue("2023") == 2023;
    DateOfDigits("", "31", "02", "2023", "");
  }

  /** What `parse_tvalues` returns. */
  datatype RowValues = RowValues(
    status: Status,
    openDate: Option<Date>,
    doneDate: Option<Date>,
    closeDate: Option<Date>,
    environment: string,
    priority: Priority,
    issueType: IssueType,
    milestone: string)

  /**
   * `parse_tvalues`: the eight cells are read left to right, so the first
   * failing codec or the first missing cell decides the error.
   */
  function ParseTValues(values: seq<string>): (r: Result<RowValues>)
    ensures |values| < 8 ==> r.Err?
    ensures |values| == 0 ==> r == Err(MissingCell)
  {
    if |values| < 1 then Err(MissingCell) else
    var status :- ParseStatus(values[0]);
    if |values| < 2 then Err(MissingCell) else
    var openDate :- ParseDate(values[1]);
    if |values| < 3 then Err(MissingCell) else
    var doneDate :- ParseDate(values[2]);
    if |values| < 4 then Err(MissingCell) else
    var closeDate :- ParseDate(values[3]);
    if |values| < 5 then Err(MissingCell) else
    var environment := values[4];
    if |values| < 6 then Err(MissingCell) else
    var priority :- ParsePriority(values[5]);
    if |values| < 7 then Err(MissingCell) else
    var issueType :- ParseType(values[6]);
    if |values| < 8 then Err(MissingCell) else
    var milestone := ParseMilestone(values[7]);
    Ok(RowValues(status, openDate, doneDate, closeDate, environment, priority, issueType, milestone))
  }

  /** Each field of a row that reads without error is what its codec makes of its cell. */
  lemma RowFields(values: seq<string>)
    requires ParseTValues(values).Ok?
    ensures var v := ParseTValues(values).value;
      && |values| >= 8
      && ParseStatus(values[0]) == Ok(v.status)
      && ParseDate(values[1]) == Ok(v.openDate)
      && ParseDate(values[2]) == Ok(v.doneDate)
      && ParseDate(values[3]) == Ok(v.closeDate)
      && v.environment == values[4]
      && ParsePriority(values[5]) == Ok(v.priority)
      && ParseType(values[6]) == Ok(v.issueType)
      && v.milestone == ParseMilestone(values[7])
  {
    assert |values| >= 8;
    assert ParseStatus(values[0]).Ok? && ParseDate(values[1]).Ok? && ParseDate(values[2]).Ok?;
    assert ParseDate(values[3]).Ok? && ParsePriority(values[5]).Ok? && ParseType(values[6]).Ok?;
    RowOfCells(values);
  }

  /** A row of eight cells whose codecs all succeed is read field by field; extra cells are ignored. */
  lemma RowOfCells(values: seq<string>)
    requires |values| >= 8
    requires ParseStatus(values[0]).Ok? && ParseDate(values[1]).Ok? && ParseDate(values[2]).Ok?
    requires ParseDate(values[3]).Ok? && ParsePriority(values[5]).Ok? && ParseType(values[6]).Ok?
    ensures ParseTValues(values) == Ok(RowValues(
      ParseStatus(values[0]).value, ParseDate(values[1]).value, ParseDate(values[2]).value,
      ParseDate(values[3]).value, values[4], ParsePriority(values[5]).value, ParseType(values[6]).value,
      ParseMilestone(values[7])))
  {
  }

  // ---------------------------------------------------------------------
  // The document parser (`parse_file`)
  // ---------------------------------------------------------------------

  /**
   * The parser's state between two lines: the records so far (the current
   * record, when there is one, is the last), and the flags `_tdata` and
   * `_content`.
   */
  datatype ParserState = ParserState(issues: seq<Issue>, tdata: bool, content: bool)

  const Start := ParserState([], false, false)

  function Current(s: ParserState): Issue
    requires s.issues != []
  {
    s.issues[|s.issues| - 1]
  }

  /** The record being filled in, replaced by its updated version. */
  function WithCurrent(s: ParserState, i: Issue): (t: ParserState)
    requires s.issues != []
    ensures |t.issues| == |s.issues| && Current(t) == i
    ensures t.issues[..|t.issues| - 1] == s.issues[..|s.issues| - 1]
    ensures t.tdata == s.tdata && t.content == s.content
  {
    s.(issues := s.issues[|s.issues| - 1 := i])
  }

  /** The eight table fields, assigned in the order of the source. */
  function WithRow(i: Issue, v: RowValues): Issue {
    i.(status := v.status, openDate := v.openDate, doneDate := v.doneDate, closeDate := v.closeDate,
       environment := v.environment, priority := v.priority, issueType := v.issueType, milestone := v.milestone)
  }

  /** An `h1` line starts a fresh record and clears both flags. */
  function StartRecord(s: ParserState, line: string): (r: Result<ParserState>)
    ensures r.Ok? <==> ParseH1(line).Ok?
    ensures r.Ok? ==> r.value == ParserState(s.issues + [NewIssue(ParseH1(line).value.0, ParseH1(line).value.1)], false, false)
  {
    var h :- ParseH1(line);
    Ok(ParserState(s.issues + [NewIssue(h.0, h.1)], false, false))
  }

  /** A data row after a separator fills in the table fields of the current record. */
  function ReadRow(s: ParserState, line: string): (r: Result<ParserState>)
    requires s.issues != []
    ensures r.Ok? <==> ParseTValues(ParseTData(line)).Ok?
    ensures r.Ok? ==> r.value == FillRow(s, ParseTValues(ParseTData(line)).value)
  {
    var v := ParseTValues(ParseTData(line));
    if v.Err? then Err(v.error) else Ok(FillRow(s, v.value))
  }

  /** The current record with the row's fields, and the content flag set. */
  function FillRow(s: ParserState, v: RowValues): (t: ParserState)
    requires s.issues != []
    ensures |t.issues| == |s.issues| && t.issues[..|t.issues| - 1] == s.issues[..|s.issues| - 1]
    ensures Current(t) == WithRow(Current(s), v)
    ensures t.tdata == s.tdata && t.content
  {
    WithCurrent(s, WithRow(Current(s), v)).(content := true)
  }

  /** Content lines collect their stripped text, one line each. */
  predicate IsContentTag(tag: Tag) {
    tag == Empty || tag == P || tag == Li
  }

  /** The first guarded step: an `h1` line starts a record. */
  function HeadingStage(s: ParserState, tag: Tag, line: string): Result<ParserState> {
    if tag == H1 then StartRecord(s, line) else Ok(s)
  }

  /** The second: an `h2` line sets the subtitle of the current record. */
  function SubtitleStage(s: ParserState, tag: Tag, line: string): ParserState {
    if tag == H2 && s.issues != [] then WithCurrent(s, Current(s).(subtitle := ParseH2(line))) else s
  }

  /** The third: a separator row switches on the table flag. */
  function SeparatorStage(s: ParserState, tag: Tag): ParserState {
    if tag == TSep then s.(tdata := true) else s
  }

  /** The fourth: a data row after a separator fills in the table fields. */
  function RowStage(s: ParserState, tag: Tag, line: string): Result<ParserState> {
    if tag == TData && s.tdata && s.issues != [] then ReadRow(s, line) else Ok(s)
  }

  /** The fifth: a content line that is not blank is appended, stripped, to the body. */
  function ContentStage(s: ParserState, tag: Tag, line: string): ParserState {
    var stripped := Trim(line);
    if IsContentTag(tag) && s.content && s.issues != [] && stripped != ""
    then WithCurrent(s, Current(s).(content := Current(s).content + stripped + "\n"))
    else s
  }

  /** One iteration of the loop over the lines: the five guarded steps, in the order of the source. */
  function Step(s: ParserState, line: string): Result<ParserState> {
    Stages(s, ParseLine(line), line)
  }

  /** The five guarded steps for a line with the given tag. */
  function Stages(s: ParserState, tag: Tag, line: string): Result<ParserState> {
    var s1 :- HeadingStage(s, tag, line);
    var s4 :- RowStage(SeparatorStage(SubtitleStage(s1, tag, line), tag), tag, line);
    Ok(ContentStage(s4, tag, line))
  }

  /** The loop over the lines, stopping at the first error. */
  function Run(s: ParserState, lines: seq<string>): Result<ParserState>
    decreases |lines|
  {
    if lines == [] then Ok(s)
    else
      var t :- Step(s, lines[0]);
      Run(t, lines[1..])
  }

  /** The loop takes one line, then goes on with the rest. */
  lemma RunCons(s: ParserState, line: string, rest: seq<string>)
    ensures Step(s, line).Err? ==> Run(s, [line] + rest) == Err(Step(s, line).error)
    ensures Step(s, line).Ok? ==> Run(s, [line] + rest) == Run(Step(s, line).value, rest)
  {
    assert ([line] + rest)[0] == line && ([line] + rest)[1..] == rest;
  }

  /** What `parse_file` returns for the given lines. */
  function ParseLines(lines: seq<string>): Result<seq<Issue>> {
    Finish(Run(Start, lines))
  }

  /** The records collected once the loop is over, or the error that stopped it. */
  function Finish(r: Result<ParserState>): Result<seq<Issue>> {
    var s :- r;
    Ok(s.issues)
  }

  /** The loop at line i: the line's stages, then the lines after it. */
  lemma RunAt(s: ParserState, lines: seq<string>, i: nat, tag: Tag)
    requires i < |lines| && tag == ParseLine(lines[i])
    ensures Stages(s, tag, lines[i]).Err? ==> Run(s, lines[i..]) == Err(Stages(s, tag, lines[i]).error)
    ensures Stages(s, tag, lines[i]).Ok? ==> Run(s, lines[i..]) == Run(Stages(s, tag, lines[i]).value, lines[i + 1..])
  {
    assert lines[i..] == [lines[i]] + lines[i + 1..];
    RunCons(s, lines[i], lines[i + 1..]);
  }

  /**
   * The body of the loop in `parse_file` after the line is tagged: the five
   * guarded updates, in the order of the source.
   */
  method ReadLine(records: seq<Issue>, inTable: bool, inContent: bool, tag: Tag, line: string) returns (r: Result<ParserState>)
    ensures r == Stages(ParserState(records, inTable, inContent), tag, line)
  {
    var s1 :- OnHeading(ParserState(records, inTable, inContent), tag, line);
    var s2 := OnSubtitle(s1, tag, line);
    var s3 := OnSeparator(s2, tag);
    var s4 :- OnDataRow(s3, tag, line);
    var s5 := OnContent(s4, tag, line);
    return Ok(s5);
  }

  /** `if tag == "h1"`: a fresh record is appended and becomes `current`; both flags are cleared. */
  method OnHeading(s: ParserState, tag: Tag, line: string) returns (r: Result<ParserState>)
    ensures r == HeadingStage(s, tag, line)
  {
    var issues, tdata, content := s.issues, s.tdata, s.content;
    if tag == H1 {
      var heading := ParseH1(line);
      if heading.Err? {
        return Err(heading.error);
      }
      issues := issues + [NewIssue(heading.value.0, heading.value.1)];
      tdata := false;
      content := false;
    }
    return Ok(ParserState(issues, tdata, content));
  }

  /** `if tag == "h2" and current`: the subtitle of `current` is set. */
  method OnSubtitle(s: ParserState, tag: Tag, line: string) returns (r: ParserState)
    ensures r == SubtitleStage(s, tag, line)
  {
    r := s;
    if tag == H2 && s.issues != [] {
      var current := s.issues[|s.issues| - 1];
      r := s.(issues := s.issues[|s.issues| - 1 := current.(subtitle := ParseH2(line))]);
      assert r == WithCurrent(s, Current(s).(subtitle := ParseH2(line)));
    }
  }

  /** `if tag == "tsep"`: the table flag is set. */
  method OnSeparator(s: ParserState, tag: Tag) returns (r: ParserState)
    ensures r == SeparatorStage(s, tag)
  {
    var tdata := s.tdata;
    if tag == TSep {
      tdata := true;
    }
    return s.(tdata := tdata);
  }

  /** `if tag == "tdata" and _tdata and current`: the eight fields of `current` are assigned and the content flag is set. */
  method OnDataRow(s: ParserState, tag: Tag, line: string) returns (r: Result<ParserState>)
    ensures r == RowStage(s, tag, line)
  {
    var issues, content := s.issues, s.content;
    if tag == TData && s.tdata && issues != [] {
      var parts := ParseTValues(ParseTData(line));
      if parts.Err? {
        return Err(parts.error);
      }
      var current := issues[|issues| - 1];
      issues := issues[|issues| - 1 := WithRow(current, parts.value)];
      content := true;
    }
    return Ok(s.(issues := issues, content := content));
  }

  /** `if tag in ("empty", "p", "li") and _content and current`: the stripped line, if any, is appended to the content of `current`. */
  method OnContent(s: ParserState, tag: Tag, line: string) returns (r: ParserState)
    ensures r == ContentStage(s, tag, line)
  {
    var issues := s.issues;
    if IsContentTag(tag) && s.content && issues != [] {
      var stripped := Trim(line);
      if stripped != "" {
        var current := issues[|issues| - 1];
        issues := issues[|issues| - 1 := current.(content := current.content + stripped + "\n")];
      }
    }
    return s.(issues := issues);
  }

  /** `parse_file`: the loop over the lines, stopping at the first line that raises. */
  method ParseFile(lines: seq<string>) returns (r: Result<seq<Issue>>)
    ensures r == ParseLines(lines)
  {
    var issues: seq<Issue> := [];
    var tdata := false;
    var content := false;
    var i := 0;
    assert lines[0..] == lines;
    while i < |lines|
      invariant 0 <= i <= |lines|
      invariant ParseLines(lines) == Finish(Run(ParserState(issues, tdata, content), lines[i..]))
    {
      var line := lines[i];
      var tag := ParseLine(line);
      RunAt(ParserState(issues, tdata, content), lines, i, tag);
      var next := ReadLine(issues, tdata, content, tag, line);
      if next.Err? {
        return Err(next.error);
      }
      issues, tdata, content := next.value.issues, next.value.tdata, next.value.content;
      i := i + 1;
    }
    return Ok(issues);
  }

  // ---------------------------------------------------------------------
  // What the state machine does, line by line and over a whole document
  // ---------------------------------------------------------------------

  /** An `h1` line appends a fresh record and clears both flags, or raises. */
  lemma StepHeading(s: ParserState, line: string)
    requires ParseLine(line) == H1
    ensures ParseH1(line).Err? ==> Step(s, line) == Err(ParseH1(line).error)
    ensures ParseH1(line).Ok? ==>
      Step(s, line) == Ok(ParserState(s.issues + [NewIssue(ParseH1(line).value.0, ParseH1(line).value.1)], false, false))
  {
    HeadingStages(s, line);
  }

  lemma HeadingStages(s: ParserState, line: string)
    ensures Stages(s, H1, line) == StartRecord(s, line)
  {
    var r := StartRecord(s, line);
    assert HeadingStage(s, H1, line) == r;
    if r.Ok? {
      var s1 := r.value;
      assert SeparatorStage(SubtitleStage(s1, H1, line), H1) == s1;
      assert RowStage(s1, H1, line) == Ok(s1);
      assert ContentStage(s1, H1, line) == s1;
    }
  }

  /** An `h2` line sets the subtitle of the current record and nothing else. */
  lemma StepSubtitle(s: ParserState, line: string)
    requires ParseLine(line) == H2
    ensures s.issues != [] ==> Step(s, line) == Ok(WithCurrent(s, Current(s).(subtitle := ParseH2(line))))
    ensures s.issues == [] ==> Step(s, line) == Ok(s)
  {
    SubtitleStages(s, line);
  }

  lemma SubtitleStages(s: ParserState, line: string)
    ensures Stages(s, H2, line) == Ok(SubtitleStage(s, H2, line))
  {
    assert HeadingStage(s, H2, line) == Ok(s);
    var s2 := SubtitleStage(s, H2, line);
    assert RowStage(SeparatorStage(s2, H2), H2, line) == Ok(s2);
    assert ContentStage(s2, H2, line) == s2;
  }

  /** A separator row switches the table flag on and changes nothing else. */
  lemma StepSeparator(s: ParserState, line: string)
    requires ParseLine(line) == TSep
    ensures Step(s, line) == Ok(s.(tdata := true))
  {
  }

  /** A data row is read only after a separator row and once there is a record. */
  lemma StepDataRow(s: ParserState, line: string)
    requires ParseLine(line) == TData
    ensures !s.tdata || s.issues == [] ==> Step(s, line) == Ok(s)
    ensures s.tdata && s.issues != [] ==> Step(s, line) == ReadRow(s, line)
  {
    assert Step(s, line) == Stages(s, TData, line);
    DataRowStages(s, line);
  }

  lemma DataRowStages(s: ParserState, line: string)
    ensures !s.tdata || s.issues == [] ==> Stages(s, TData, line) == Ok(s)
    ensures s.tdata && s.issues != [] ==> Stages(s, TData, line) == ReadRow(s, line)
  {
    assert HeadingStage(s, TData, line) == Ok(s);
    assert SeparatorStage(SubtitleStage(s, TData, line), TData) == s;
    if s.tdata && s.issues != [] {
      RowRead(s, line);
    } else {
      assert RowStage(s, TData, line) == Ok(s);
      assert ContentStage(s, TData, line) == s;
    }
  }

  lemma RowRead(s: ParserState, line: string)
    requires s.tdata && s.issues != []
    requires HeadingStage(s, TData, line) == Ok(s)
    requires SeparatorStage(SubtitleStage(s, TData, line), TData) == s
    ensures Stages(s, TData, line) == ReadRow(s, line)
  {
    assert !IsContentTag(TData);
    var r := ReadRow(s, line);
    assert RowStage(s, TData, line) == r;
    if r.Ok? {
      assert ContentStage(r.value, TData, line) == r.value;
    }
  }

  /** With the table flag set and a current record, a row of fewer than eight cells raises. */
  lemma ShortRowFails(s: ParserState, line: string)
    requires ParseLine(line) == TData && s.tdata && s.issues != []
    requires |ParseTData(line)| < 8
    ensures Step(s, line).Err?
  {
    StepDataRow(s, line);
  }

  /**
   * An empty, paragraph or list line after the data row appends its stripped
   * text and a newline to the current record's content; blank lines add nothing.
   */
  lemma StepContent(s: ParserState, line: string)
    requires IsContentTag(ParseLine(line))
    ensures s.content && s.issues != [] && Trim(line) != "" ==>
      Step(s, line) == Ok(WithCurrent(s, Current(s).(content := Current(s).content + Trim(line) + "\n")))
    ensures !s.content || s.issues == [] || Trim(line) == "" ==> Step(s, line) == Ok(s)
  {
    ContentStages(s, ParseLine(line), line);
  }

  lemma ContentStages(s: ParserState, tag: Tag, line: string)
    requires IsContentTag(tag)
    ensures Stages(s, tag, line) == Ok(ContentStage(s, tag, line))
  {
    assert HeadingStage(s, tag, line) == Ok(s);
    assert SeparatorStage(SubtitleStage(s, tag, line), tag) == s;
    assert RowStage(s, tag, line) == Ok(s);
  }

  /** `h3` and unknown lines change nothing. */
  lemma StepIgnored(s: ParserState, line: string)
    requires ParseLine(line) == H3 || ParseLine(line) == Unknown
    ensures Step(s, line) == Ok(s)
  {
    IgnoredStages(s, ParseLine(line), line);
  }

  lemma IgnoredStages(s: ParserState, tag: Tag, line: string)
    requires tag == H3 || tag == Unknown
    ensures Stages(s, tag, line) == Ok(s)
  {
    assert HeadingStage(s, tag, line) == Ok(s);
    assert SeparatorStage(SubtitleStage(s, tag, line), tag) == s;
    assert RowStage(s, tag, line) == Ok(s);
  }

  /** Only an `h1` line clears the table flag: a separator row's effect lasts until the next record. */
  lemma TableFlagSticks(s: ParserState, line: string)
    requires ParseLine(line) != H1 && Step(s, line).Ok?
    ensures Step(s, line).value.tdata == (s.tdata || ParseLine(line) == TSep)
  {
    StagesKeepTableFlag(s, ParseLine(line), line);
  }

  lemma StagesKeepTableFlag(s: ParserState, tag: Tag, line: string)
    requires tag != H1 && Stages(s, tag, line).Ok?
    ensures Stages(s, tag, line).value.tdata == (s.tdata || tag == TSep)
  {
    var s2 := SubtitleStage(s, tag, line);
    var s3 := SeparatorStage(s2, tag);
    assert s2.tdata == s.tdata;
    assert s3.tdata == (s.tdata || tag == TSep);
    var s4 := RowStage(s3, tag, line).value;
    assert s4.tdata == s3.tdata;
  }

  /** The ids and titles of a list of records. */
  function Heads(issues: seq<Issue>): (r: seq<(int, string)>)
    ensures |r| == |issues|
    ensures forall k :: 0 <= k < |issues| ==> r[k] == (issues[k].id, issues[k].title)
  {
    if issues == [] then [] else [(issues[0].id, issues[0].title)] + Heads(issues[1..])
  }

  lemma HeadsAppend(a: seq<Issue>, b: seq<Issue>)
    ensures Heads(a + b) == Heads(a) + Heads(b)
  {
  }

  /** The headings of the `h1` lines that `parse_h1` reads, in the order of the lines. */
  function Headings(lines: seq<string>): seq<(int, string)>
    decreases |lines|
  {
    if lines == [] then [] else HeadingOf(lines[0]) + Headings(lines[1..])
  }

  /** The heading of an `h1` line that `parse_h1` reads; nothing for any other line. */
  function HeadingOf(line: string): seq<(int, string)> {
    if ParseLine(line) == H1 && ParseH1(line).Ok? then [ParseH1(line).value] else []
  }

  /** One line adds a record exactly when it is an `h1` line, and leaves the ids and titles of the others alone. */
  lemma StepHeads(s: ParserState, line: string)
    requires Step(s, line).Ok?
    ensures Heads(Step(s, line).value.issues) == Heads(s.issues) + HeadingOf(line)
  {
    StagesHeads(s, ParseLine(line), line);
  }

  lemma StagesHeads(s: ParserState, tag: Tag, line: string)
    requires Stages(s, tag, line).Ok?
    ensures Heads(Stages(s, tag, line).value.issues)
      == Heads(s.issues) + (if tag == H1 then [ParseH1(line).value] else [])
  {
    var s1 := HeadingStage(s, tag, line).value;
    HeadingStageHeads(s, tag, line);
    LaterStagesHeads(s1, tag, line);
  }

  lemma HeadingStageHeads(s: ParserState, tag: Tag, line: string)
    requires HeadingStage(s, tag, line).Ok?
    ensures Heads(HeadingStage(s, tag, line).value.issues)
      == Heads(s.issues) + (if tag == H1 then [ParseH1(line).value] else [])
  {
    if tag == H1 {
      HeadsAppend(s.issues, [NewIssue(ParseH1(line).value.0, ParseH1(line).value.1)]);
    }
  }

  /** The stages after the heading never change an id or a title. */
  lemma LaterStagesHeads(s1: ParserState, tag: Tag, line: string)
    requires RowStage(SeparatorStage(SubtitleStage(s1, tag, line), tag), tag, line).Ok?
    ensures Heads(ContentStage(RowStage(SeparatorStage(SubtitleStage(s1, tag, line), tag), tag, line).value, tag, line).issues)
      == Heads(s1.issues)
  {
    var s2 := SubtitleStage(s1, tag, line);
    SubtitleStageHeads(s1, tag, line);
    var s3 := SeparatorStage(s2, tag);
    assert s3.issues == s2.issues;
    RowStageHeads(s3, tag, line);
    ContentStageHeads(RowStage(s3, tag, line).value, tag, line);
  }

  lemma SubtitleStageHeads(s: ParserState, tag: Tag, line: string)
    ensures Heads(SubtitleStage(s, tag, line).issues) == Heads(s.issues)
  {
    SameHeads(s, SubtitleStage(s, tag, line));
  }

  lemma RowStageHeads(s: ParserState, tag: Tag, line: string)
    requires RowStage(s, tag, line).Ok?
    ensures Heads(RowStage(s, tag, line).value.issues) == Heads(s.issues)
  {
    if tag == TData && s.tdata && s.issues != [] {
      var v := ParseTValues(ParseTData(line)).value;
      assert RowStage(s, tag, line).value == FillRow(s, v);
      SameHeads(s, FillRow(s, v));
    }
  }

  lemma ContentStageHeads(s: ParserState, tag: Tag, line: string)
    ensures Heads(ContentStage(s, tag, line).issues) == Heads(s.issues)
  {
    SameHeads(s, ContentStage(s, tag, line));
  }

  /** Replacing the current record by one with the same id and title keeps the heads. */
  lemma SameHeads(s: ParserState, t: ParserState)
    requires |s.issues| == |t.issues|
    requires s.issues != [] ==> s.issues[..|s.issues| - 1] == t.issues[..|t.issues| - 1]
    requires s.issues != [] ==> Current(s).id == Current(t).id && Current(s).title == Current(t).title
    ensures Heads(s.issues) == Heads(t.issues)
  {
    forall k | 0 <= k < |s.issues| ensures s.issues[k].id == t.issues[k].id && s.issues[k].title == t.issues[k].title {
      if k < |s.issues| - 1 {
        assert s.issues[k] == s.issues[..|s.issues| - 1][k];
      }
    }
  }

  /**
   * The records come out in the order of their `h1` lines: the ids and
   * titles of the result are the headings of the document, one for each.
   */
  lemma {:induction false} RunHeads(s: ParserState, lines: seq<string>)
    requires Run(s, lines).Ok?
    ensures Heads(Run(s, lines).value.issues) == Heads(s.issues) + Headings(lines)
    decreases |lines|
  {
    if lines != [] {
      RunFirst(s, lines);
      var t := Step(s, lines[0]).value;
      StepHeads(s, lines[0]);
      RunHeads(t, lines[1..]);
      HeadsThen(Heads(s.issues), HeadingOf(lines[0]), lines);
    }
  }

  lemma RunFirst(s: ParserState, lines: seq<string>)
    requires lines != [] && Run(s, lines).Ok?
    ensures Step(s, lines[0]).Ok? && Run(s, lines) == Run(Step(s, lines[0]).value, lines[1..])
  {
  }

  lemma HeadsThen(a: seq<(int, string)>, b: seq<(int, string)>, lines: seq<string>)
    requires lines != [] && b == HeadingOf(lines[0])
    ensures (a + b) + Headings(lines[1..]) == a + Headings(lines)
  {
  }

  /** `parse_file` returns one record per `h1` line, in the order of the lines. */
  lemma RecordsInDocumentOrder(lines: seq<string>)
    requires ParseLines(lines).Ok?
    ensures Heads(ParseLines(lines).value) == Headings(lines)
  {
    RunHeads(Start, lines);
  }

  /** The loop over a document in two pieces. */
  lemma {:induction false} RunAppend(s: ParserState, a: seq<string>, b: seq<string>)
    ensures Run(s, a + b) == (var t :- Run(s, a); Run(t, b))
    decreases |a|
  {
    if a == [] {
      assert a + b == b;
    } else {
      assert (a + b)[0] == a[0] && (a + b)[1..] == a[1..] + b;
      var t := Step(s, a[0]);
      if t.Ok? {
        RunAppend(t.value, a[1..], b);
      }
    }
  }

  predicate NoHeading(lines: seq<string>) {
    forall k :: 0 <= k < |lines| ==> ParseLine(lines[k]) != H1
  }

  /** Before the first record nothing is collected: only the table flag can change. */
  lemma {:induction false} RunBeforeHeading(tdata: bool, lines: seq<string>)
    requires NoHeading(lines)
    ensures Run(ParserState([], tdata, false), lines).Ok?
    ensures Run(ParserState([], tdata, false), lines).value.issues == []
    ensures !Run(ParserState([], tdata, false), lines).value.content
    decreases |lines|
  {
    if lines != [] {
      var s := ParserState([], tdata, false);
      assert ParseLine(lines[0]) != H1;
      var t := Step(s, lines[0]).value;
      assert t == ParserState([], tdata || ParseLine(lines[0]) == TSep, false);
      assert NoHeading(lines[1..]) by {
        assert forall k :: 0 <= k < |lines| - 1 ==> lines[1..][k] == lines[k + 1];
      }
      RunBeforeHeading(t.tdata, lines[1..]);
    }
  }

  /** A document without an `h1` line holds no records. */
  lemma NoHeadingNoRecords(lines: seq<string>)
    requires NoHeading(lines)
    ensures ParseLines(lines) == Ok([])
  {
    RunBeforeHeading(false, lines);
  }

  /** Lines before the first `h1` line are ignored. */
  lemma PreambleIgnored(preamble: seq<string>, rest: seq<string>)
    requires NoHeading(preamble)
    requires rest != [] && ParseLine(rest[0]) == H1
    ensures ParseLines(preamble + rest) == ParseLines(rest)
  {
    RunBeforeHeading(false, preamble);
    RunAppend(Start, preamble, rest);
    RunFromHeading(Run(Start, preamble).value, Start, rest);
  }

  /** From an `h1` line on, only the records collected so far matter, not the flags. */
  lemma RunFromHeading(s: ParserState, t: ParserState, lines: seq<string>)
    requires s.issues == t.issues
    requires lines != [] && ParseLine(lines[0]) == H1
    ensures Run(s, lines) == Run(t, lines)
  {
    assert lines[0..] == lines;
    RunAt(s, lines, 0, H1);
    RunAt(t, lines, 0, H1);
    HeadingStages(s, lines[0]);
    HeadingStages(t, lines[0]);
    assert StartRecord(s, lines[0]) == StartRecord(t, lines[0]);
  }

  // ---------------------------------------------------------------------
  // Text in, text out
  // ---------------------------------------------------------------------

  /** Reading in text mode turns `"\r\n"` and a lone `"\r"` into `"\n"`. */
  function TranslateNewlines(s: string): (r: string)
    ensures '\r' !in r
    ensures '\r' !in s ==> r == s
    decreases |s|
  {
    if s == "" then ""
    else if s[0] == '\r' then "\n" + TranslateNewlines(if |s| > 1 && s[1] == '\n' then s[2..] else s[1..])
    else
      assert s == [s[0]] + s[1..];
      [s[0]] + TranslateNewlines(s[1..])
  }

  /** A line as iterating over a file yields it: not empty, and a newline at most at its end. */
  predicate IsLine(line: string) {
    line != "" && '\n' !in line[..|line| - 1]
  }

  predicate EndsLine(line: string) {
    line != "" && line[|line| - 1] == '\n'
  }

  /** Lines that follow each other in a file: every one but the last ends with a newline. */
  predicate AreLines(lines: seq<string>) {
    && (forall k :: 0 <= k < |lines| ==> IsLine(lines[k]))
    && (forall k :: 0 <= k < |lines| - 1 ==> EndsLine(lines[k]))
  }

  /** The lines `for line in file` yields: each ends at a `"\n"` and keeps it; the last may lack it. */
  function FileLines(text: string): (lines: seq<string>)
    ensures Concat(lines) == text && AreLines(lines)
    decreases |text|
  {
    if text == "" then []
    else
      var c := text[0];
      var rest := FileLines(text[1..]);
      assert text == [c] + Concat(rest);
      if c == '\n' || rest == [] then
        ConsLines([c], rest);
        FirstLine([c], rest)
      else
        ExtendLine(c, rest);
        assert text == ([c] + rest[0]) + Concat(rest[1..]);
        FirstLine([c] + rest[0], rest[1..])
  }

  lemma ConsLines(line: string, rest: seq<string>)
    requires IsLine(line) && AreLines(rest) && (rest != [] ==> EndsLine(line))
    ensures AreLines([line] + rest)
  {
    var ls := [line] + rest;
    forall k | 0 < k < |ls| ensures ls[k] == rest[k - 1] {
    }
  }

  /** A character that is no newline joins the first of the lines after it. */
  lemma ExtendLine(c: char, rest: seq<string>)
    requires c != '\n' && rest != [] && AreLines(rest)
    ensures Concat(rest) == rest[0] + Concat(rest[1..])
    ensures AreLines([[c] + rest[0]] + rest[1..])
  {
    var first := [c] + rest[0];
    assert first[..|first| - 1] == [c] + rest[0][..|rest[0]| - 1];
    assert EndsLine(first) == EndsLine(rest[0]);
    assert AreLines(rest[1..]) by {
      forall k | 0 <= k < |rest| - 1 ensures rest[1..][k] == rest[k + 1] {
      }
    }
    ConsLines(first, rest[1..]);
  }

  /** A line followed by more lines. */
  function FirstLine(line: string, rest: seq<string>): (lines: seq<string>)
    ensures lines == [line] + rest
    ensures Concat(lines) == line + Concat(rest)
  {
    assert ([line] + rest)[1..] == rest;
    [line] + rest
  }

  /** Splitting the text of some lines into lines gives them back: the split is the only one with these properties. */
  lemma {:induction false} FileLinesOfLines(lines: seq<string>)
    requires AreLines(lines)
    ensures FileLines(Concat(lines)) == lines
    decreases |Concat(lines)|
  {
    if lines != [] {
      var text := Concat(lines);
      var first := lines[0];
      TailLines(lines);
      if |first| == 1 {
        ShortFirstLine(lines);
        FileLinesOfLines(lines[1..]);
        assert lines == [first] + lines[1..];
      } else {
        var more := [first[1..]] + lines[1..];
        LongFirstLine(lines);
        FileLinesOfLines(more);
        assert [first[0]] + first[1..] == first;
        assert more[1..] == lines[1..];
      }
    }
  }

  lemma TailLines(lines: seq<string>)
    requires AreLines(lines) && lines != []
    ensures AreLines(lines[1..])
  {
    forall k | 0 <= k < |lines| - 1 ensures lines[1..][k] == lines[k + 1] {
    }
  }

  /** A first line of one character: the rest of the text is the text of the other lines. */
  lemma ShortFirstLine(lines: seq<string>)
    requires AreLines(lines) && lines != [] && |lines[0]| == 1
    ensures Concat(lines) != "" && Concat(lines)[0] == lines[0][0]
    ensures Concat(lines)[1..] == Concat(lines[1..])
    ensures |lines| > 1 ==> lines[0][0] == '\n'
  {
    assert EndsLine(lines[0]) ==> lines[0][0] == '\n';
  }

  /** A longer first line: the rest of the text is the text of the lines with that line shortened. */
  lemma LongFirstLine(lines: seq<string>)
    requires AreLines(lines) && lines != [] && |lines[0]| > 1
    ensures lines[0][0] != '\n'
    ensures AreLines([lines[0][1..]] + lines[1..])
    ensures Concat(lines) != "" && Concat(lines)[0] == lines[0][0]
    ensures Concat(lines)[1..] == Concat([lines[0][1..]] + lines[1..])
  {
    var first := lines[0];
    var w := first[1..];
    assert first[..|first| - 1][0] == first[0];
    assert w[..|w| - 1] == first[..|first| - 1][1..];
    TailLines(lines);
    ConsLines(w, lines[1..]);
    ShortenedText(lines);
  }

  lemma ShortenedText(lines: seq<string>)
    requires lines != [] && |lines[0]| > 1
    ensures Concat(lines) == [lines[0][0]] + Concat([lines[0][1..]] + lines[1..])
  {
    var w := lines[0][1..];
    var more := [w] + lines[1..];
    var x := Concat(lines[1..]);
    assert more[0] == w && more[1..] == lines[1..];
    assert Concat(more) == w + x;
    assert Concat(lines) == lines[0] + x;
    assert lines[0] + x == [lines[0][0]] + (w + x);
  }

  /** `open(path).read()` followed by `parse_file`. */
  function ParseText(text: string): Result<seq<Issue>> {
    ParseLines(FileLines(TranslateNewlines(text)))
  }

  /** What `dump_path` writes: the blocks of the records, one after the other, with nothing between them. */
  function Dump(issues: seq<Issue>): (text: string)
    ensures issues == [] ==> text == ""
  {
    if issues == [] then "" else Render(issues[0]) + Dump(issues[1..])
  }
}
