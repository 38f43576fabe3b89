# issuetruck in Dafny

issuetruck keeps a project's issues in one Markdown "ToDo" document. Each issue is a block:

- a `# id - title` heading;
- an optional `## subtitle`;
- a fixed-width table with one data row holding status, three dates, environment, priority, type and milestone;
- free-text content lines.

The command-line tool reads the document into a list of `Issue` records. It then creates, edits, re-statuses, lists or archives records, and writes the list back as the concatenation of the rendered blocks.

This project models that core and proves properties of it.

| module | file | models |
|---|---|---|
| `Results` | `results.dfy` | the error outcomes of the parser (a failed `int()`, an unknown label, an impossible date, a short row, a heading that does not split in two) as a `Result` |
| `Text` | `text.dfy` | the Python string operations the core relies on: `strip`, `split` on one character, `"sep".join`, `ljust`, slicing, `lower`, `startswith`, `in`, `int()` of a decimal string, and `f"{n:02}"` zero padding |
| `Dates` | `dates.dfy` | `datetime.date`: a calendar date that the constructor accepts (Gregorian leap years, years 1 to 9999), and its `dd/mm/yyyy` rendering |
| `Seqs` | `seqs.dfy` | list comprehensions with a condition, as an order-preserving filter on sequences |
| `Composition` | `compose.dfy` | `compose`: a left-to-right fold of function values that starts from the identity |
| `Issues` | `issue.dfy` | the three label enums, the `Issue` record and its Markdown rendering, id and priority choice, lookup by id, the fourteen filters and `apply_filters`, the archive split and `format_comment` |
| `Markdown` | `markdown.dfy` | the line classifier, the heading and cell codecs, the `parse_file` state machine (a method with a loop, proved against a step function), how `for line in file` splits text into lines, and the serialisation in `dump_path` |
| `RoundTrip` | `roundtrip.dfy` | the round trip: parsing a dumped list of readable records gives them back, with each body's blank lines dropped |
| `App` | `app.dfy` | the in-memory part of the `create`, `edit`, `status` and `archive` commands, as a `Store` class over the list of records |

Modelling choices:

- **Records are values.** `Issue` is a datatype held in a `seq`. The commands' field updates become the replacement of one element of that sequence. The list is the only holder of each record, so nothing else can observe the change.
- **The parser is imperative.** `Markdown.ParseFile` walks the lines with a `while` loop that updates the record list and the two flags (`_tdata`, `_content`). Each stage of the loop body is a small method, and every one is proved equal to a stage of the pure step function `Markdown.Step`. The lemmas about the parser are stated over `Step` and its fold `Run`.
- **The commands are imperative.** `App.Store` holds the record list. Its methods `Create`, `Edit` and `ChangeStatus` make the guarded field assignments of the source in the source's order, and each is proved equal to a specification function (`Created`, `Edited`, `StatusChanged`).
- **Dates.** `date.today()` is a parameter `today` of every operation that reads it. A `Date` is a `CalendarDate` that `IsValidDate` accepts, so like a Python `date` it is always a real calendar day.
- **Characters.** `str.strip` and `\s` use Python's exact set of whitespace code points. `\w`, `\d`, `int()` digits and `str.lower` are restricted to ASCII.

## Model

| member | source | states |
|---|---|---|
| Issues.Status.Label | issuetruck/issue.py:13-17 | the label of each status, as its enum value, at most 8 characters |
| Issues.Priority.Label | issuetruck/issue.py:20-24 | the label of each priority, at most 8 characters |
| Issues.IssueType.Label | issuetruck/issue.py:27-30 | the label of each issue type, at most 11 characters |
| Issues.DateText | issuetruck/issue.py:94-99 | an absent date renders as the empty string, a present one as exactly 10 characters |
| Issues.DataRowWidth | issuetruck/issue.py:121-123 | with a milestone of at most 11 characters the data row is exactly as wide as the table head, less 10 when the open date is absent (that cell is not padded) |
| Issues.JoinLayout | issuetruck/issue.py:48-63 | joining the block's lines with newlines puts each line after a newline: title, optional subtitle, blank, head, separator, row, blank, content |
| Issues.Render | issuetruck/issue.py:48-63 | `__str__` of a record as the newline join of its parts; `Issues.RenderLayout` states the text it gives |
| Issues.RenderLayout | issuetruck/issue.py:48-63 | a rendered block is the title line, the subtitle line only when the subtitle is not empty, a blank line, head, separator and row lines, a blank line, then the content, with the same shape whether or not the content is empty |
| Issues.MaxId | issuetruck/issue.py:133 | the largest id of a non-empty list: no record has a larger id, and some record has it |
| Issues.GetNewId | issuetruck/issue.py:130-133 | the new id is at least `start`, above every existing id, and either `start` or one more than an existing id; an empty list gives `start` |
| Issues.GetNewPriority | issuetruck/issue.py:136-144 | an explicit priority is kept; otherwise Low exactly when the type is Improvement, and Medium otherwise, including when no type is given |
| Issues.IndexOfId | issuetruck/issue.py:149 | the index of the first record with the id, None exactly when no record has that id |
| Issues.GetById | issuetruck/issue.py:147-153 | None exactly when no record has the id; otherwise the first record that has it |
| Issues.Gated | issuetruck/issue.py:156-161 | the shape every filter has: disarmed it returns its input, armed it returns the order-preserving subsequence that keeps every copy of a satisfying record and no other |
| Issues.FilterByStatusOpen | issuetruck/issue.py:156-161 | disarmed: the input; armed: exactly the Open records, in order |
| Issues.FilterByStatusClosed | issuetruck/issue.py:164-169 | disarmed: the input; armed: exactly the Closed records, in order |
| Issues.FilterByStatusTest | issuetruck/issue.py:172-177 | disarmed: the input; armed: exactly the Test records, in order |
| Issues.FilterByStatusCanceled | issuetruck/issue.py:180-185 | disarmed: the input; armed: exactly the Canceled records, in order |
| Issues.FilterByTypeBug | issuetruck/issue.py:188-189 | disarmed: the input; armed: exactly the Bug records, in order |
| Issues.FilterByTypeFeature | issuetruck/issue.py:192-197 | disarmed: the input; armed: exactly the Feature records, in order |
| Issues.FilterByTypeImprovement | issuetruck/issue.py:200-205 | disarmed: the input; armed: exactly the Improvement records, in order |
| Issues.FilterByPriorityLow | issuetruck/issue.py:208-213 | disarmed: the input; armed: exactly the Low records, in order |
| Issues.FilterByPriorityMedium | issuetruck/issue.py:216-221 | disarmed: the input; armed: exactly the Medium records, in order |
| Issues.FilterByPriorityHigh | issuetruck/issue.py:224-229 | disarmed: the input; armed: exactly the High records, in order |
| Issues.FilterByPriorityCritical | issuetruck/issue.py:232-237 | disarmed: the input; armed: exactly the Critical records, in order |
| Issues.FilterByEnvironment | issuetruck/issue.py:240-247 | None or "" leaves the input; otherwise exactly the records whose environment equals the argument, in order |
| Issues.FilterByMilestone | issuetruck/issue.py:250-255 | None or "" leaves the input; otherwise exactly the records whose milestone starts with the argument, in order |
| Issues.FilterByTitle | issuetruck/issue.py:258-263 | None or "" leaves the input; otherwise exactly the records whose lower-cased title contains the lower-cased argument, in order |
| Issues.KeepAll | issuetruck/issue.py:279-311 | the reference meaning of several criteria: the order-preserving subsequence of the records satisfying every one |
| Issues.PipelineIsGuarded | issuetruck/issue.py:296-310 | the fourteen partial applications, in the source's order, are the fourteen guarded filters |
| Issues.KeepOneMore | issuetruck/issue.py:296-311 | one more armed filter after several keeps exactly the records that satisfy all of them |
| Issues.ComposeGuarded | issuetruck/issue.py:296-311 | composing guarded filters keeps exactly the records satisfying every armed criterion |
| Issues.ApplyFilters | issuetruck/issue.py:279-311 | `apply_filters` keeps exactly the records satisfying every armed predicate, in their original order |
| Issues.KeepAllOrderIndependent | issuetruck/issue.py:279-311 | the result depends only on which criteria are armed, not on their order or repetition |
| Issues.ApplyNoFilters | issuetruck/issue.py:279-311 | with no filter armed `apply_filters` is the identity |
| Issues.NoFiltersNoCriteria | issuetruck/issue.py:279-295 | the default options arm no criterion |
| Issues.TwoStatusesKeepNothing | issuetruck/issue.py:297-300 | arming two different status filters keeps nothing |
| Issues.SplitToArchive | issuetruck/issue.py:266-276 | the archive part is exactly the Closed or Canceled records whose id differs from the largest id, and the kept part holds the rest; both parts preserve order, their lengths sum to the input's, and every record holding the largest id is kept |
| Issues.ArchivedAreFinished | issuetruck/issue.py:270-274 | every archived record is Closed or Canceled |
| Issues.TopStays | issuetruck/issue.py:270-275 | every record holding the largest id stays in the kept part |
| Issues.TopKept | issuetruck/issue.py:268-275 | the kept part of a non-empty list holds a record with the largest id |
| Issues.KeptBelowTop | issuetruck/issue.py:268-275 | no kept record's id exceeds the largest id of the input |
| Issues.SplitKeepsNewId | issuetruck/issue.py:266-276 | the next id chosen after archiving equals the one chosen before |
| Issues.FormatComment | issuetruck/issue.py:319-325 | a comment is the date as dd/mm/yyyy, `" - "`, the operation's name, `" - "`, the message and the ending, each at its exact position |
| Issues.FormatCommentExamples | tests/test_issue.py:317-329 | the tests' create, edit and status comments on 4 March 2020, 5 April 2021 and 6 May 2022, each ending in ENDL |
| Markdown.ParseLine | issuetruck/markdown.py:56-73 | the classifier itself; what each tag means is stated by `Markdown.ClassifierPrecedence` |
| Markdown.ClassifierPrecedence | issuetruck/markdown.py:56-73 | each tag is returned exactly when its test holds and no earlier test does: `# `, `## `, `### `, separator pattern, data-row pattern, blank, leading word character, `- `, otherwise unknown |
| Markdown.LeadChar | issuetruck/markdown.py:63-71 | the leading characters of the patterns are told apart: a word character is not whitespace, a hash, a bar or a dash |
| Markdown.TableStarts | issuetruck/markdown.py:63-66 | both table patterns only match a line that starts with a bar |
| Markdown.SeparatorRowIsDataRow | issuetruck/markdown.py:63-66 | every separator row also matches the data-row pattern, which is why the separator test must come first |
| Markdown.NotSeparatorRow | issuetruck/markdown.py:63 | a bar with whitespace followed by a character that is neither whitespace nor a dash is not a separator row |
| Markdown.ItemLine | issuetruck/markdown.py:71-72 | a line starting with `- ` is a list item |
| Markdown.WordLine | issuetruck/markdown.py:69-70 | a line starting with a word character is a paragraph |
| Markdown.HashLine | issuetruck/markdown.py:73 | a `#` followed by neither a space nor another `#` is unknown |
| Markdown.DataRowLine | issuetruck/markdown.py:65-66 | a bar, whitespace, a character that is not a dash, then text up to whitespace and a bar on one line, is a data row |
| Markdown.BlankLine | issuetruck/markdown.py:67-68 | a line of whitespace only is empty |
| Markdown.HeadingLineExamples | tests/test_markdown.py:39-41 | the test's three headings: `# 1 - Title` is h1, `## Subtitle` is h2, `### Sub-Subtitle` is h3; plus an added case, `#nospace` is unknown |
| Markdown.SeparatorLineExample | tests/test_markdown.py:43 | the test's row of three dash runs between bars is a separator row |
| Markdown.DataLineExample | tests/test_markdown.py:42 | the test's row of three data cells between bars is a data row |
| Markdown.BlankLineExamples | tests/test_markdown.py:44-46 | "", a space and a tab are empty lines |
| Markdown.WordLineExamples | tests/test_markdown.py:47-48 | `ABC` and `123` are paragraphs |
| Markdown.ItemLineExample | tests/test_markdown.py:49 | `- [ ] List item` is a list item |
| Markdown.ParseH1 | issuetruck/markdown.py:76-78 | a heading without a dash fails; a parsed id is never negative, and a parsed title is trimmed and has no dash |
| Markdown.H1Outcome | issuetruck/markdown.py:76-78 | a heading whose text after the marker does not split into exactly two parts on `-` fails with the unpack error; with two parts it succeeds exactly when `int()` accepts the stripped left part, fails with the integer error otherwise, and gives (that integer, the stripped right part) |
| Markdown.H1NotInteger | issuetruck/markdown.py:77-78 | one dash and a left part that `int()` rejects: the heading raises the integer error |
| Markdown.H1WordNotInteger | issuetruck/markdown.py:77-78 | a heading with one dash whose id is a single space-padded word that `int()` rejects raises the integer error |
| Markdown.H1NotIntegerExample | issuetruck/markdown.py:78 | `# x - Title` raises the integer error |
| Markdown.H1OneDash | issuetruck/markdown.py:76-78 | when the text after the first character has exactly one dash and the left side is an integer, the result is that integer and the trimmed right side |
| Markdown.H1CodecInverts | issuetruck/markdown.py:76-78 | `parse_h1` inverts `_md_title` for every id >= 0 and every trimmed title without a dash, whatever whitespace ends the line |
| Markdown.H1DashUnreadable | issuetruck/markdown.py:77 | a negative id or a title containing a dash makes the rendered heading fail to parse |
| Markdown.ParseIntNoSign | issuetruck/markdown.py:78 | text without a dash parses to no negative integer |
| Markdown.H1Example | tests/test_markdown.py:20-21 | `# 1 - Title` reads as (1, "Title") |
| Markdown.H1DashExample | issuetruck/markdown.py:77 | `# 1 - A-B` fails: three parts do not unpack into two |
| Markdown.ParseH2 | issuetruck/markdown.py:81-82 | the subtitle read is trimmed |
| Markdown.H2CodecInverts | issuetruck/markdown.py:81-82 | `parse_h2` inverts `_md_subtitle` for every trimmed subtitle |
| Markdown.H2Example | tests/test_markdown.py:24-25 | `## Subtitle` reads as "Subtitle" |
| Markdown.ParseH3 | issuetruck/markdown.py:85-86 | the sub-subtitle read is trimmed |
| Markdown.H3Example | tests/test_markdown.py:28-29 | `### Sub-Subtitle` reads as "Sub-Subtitle" |
| Markdown.ParseTData | issuetruck/markdown.py:89-90 | one cell per bar-separated part of the line without its first and last characters; cell k is the k-th part stripped, so it is trimmed and bar-free |
| Markdown.TDataRow | issuetruck/markdown.py:89-90 | a row of three space-padded, trimmed, bar-free texts between bars gives exactly those three cells |
| Markdown.TDataRowNewline | issuetruck/markdown.py:89-90 | the same row ending in a line break gives those three cells and an empty fourth |
| Markdown.TDataExample | tests/test_markdown.py:32-35 | the test's row of Data1, Data2 and Data3 gives exactly those three cells |
| Markdown.TDataNewlineExample | issuetruck/markdown.py:89-90 | the same row with its line break gives those three cells and an empty fourth |
| Markdown.ParseStatus | issuetruck/markdown.py:114-115 | succeeds exactly when the trimmed text is a status label, and then returns the status with that label |
| Markdown.StatusCodecInverts | issuetruck/markdown.py:114-115 | every status label, with any surrounding whitespace, reads back as its status |
| Markdown.StatusOfLabel | tests/test_markdown.py:52-68 | any text that trims to a status label reads as that status |
| Markdown.ParsePriority | issuetruck/markdown.py:118-119 | succeeds exactly when the trimmed text is a priority label, and then returns the priority with that label |
| Markdown.PriorityCodecInverts | issuetruck/markdown.py:118-119 | every priority label, with any surrounding whitespace, reads back as its priority |
| Markdown.PriorityOfLabel | tests/test_markdown.py:71-87 | any text that trims to a priority label reads as that priority |
| Markdown.ParseType | issuetruck/markdown.py:122-123 | succeeds exactly when the trimmed text is a type label, and then returns the type with that label |
| Markdown.TypeCodecInverts | issuetruck/markdown.py:122-123 | every type label, with any surrounding whitespace, reads back as its type |
| Markdown.TypeOfLabel | tests/test_markdown.py:90-102 | any text that trims to a type label reads as that type |
| Markdown.ParseMilestone | issuetruck/markdown.py:126-130 | the trimmed text when it starts with digits.digits.digits (trailing text kept), "" otherwise |
| Markdown.MilestoneCodecInverts | issuetruck/markdown.py:126-130 | "" and every trimmed milestone that starts with a version read back unchanged, with any surrounding whitespace |
| Markdown.VersionShape | issuetruck/markdown.py:128 | a version prefix has at least five characters and starts with a digit |
| Markdown.NoVersion | issuetruck/markdown.py:128-130 | trimmed text shorter than five characters, or not starting with a digit, reads as "" |
| Markdown.MilestoneExample | tests/test_markdown.py:106 | `1.2.3` reads as itself |
| Markdown.PaddedMilestoneExample | tests/test_markdown.py:109 | ` 1.2.3 ` reads as `1.2.3` |
| Markdown.SuffixMilestoneExample | issuetruck/markdown.py:128-129 | `1.2.3-beta` keeps its suffix |
| Markdown.NoMilestoneExamples | tests/test_markdown.py:110-116 | `x.y.z`, `xyz`, `1.2.`, `1.2`, `1.`, `1` and "" read as "" |
| Markdown.NamedMilestoneExamples | issuetruck/markdown.py:126-130 | the milestone names `v1.0` and `beta` read as "" |
| Markdown.ParseDate | issuetruck/markdown.py:133-137 | text that does not split into exactly three parts on `/` (so also text without a slash) reads as no date; a date read has the integers of parts 0, 1 and 2 as day, month and year |
| Markdown.DateOutcome | issuetruck/markdown.py:133-137 | three parts never read as no date: they give a date exactly when all three are integers that make a valid calendar date, and fail with the integer error when one of them is not an integer |
| Markdown.DateNotInteger | issuetruck/markdown.py:137 | three parts whose last one `int()` rejects: the date raises the integer error, as the year is read first |
| Markdown.DateNotIntegerExample | issuetruck/markdown.py:137 | `aa/bb/cc` raises the integer error |
| Markdown.SplitThree | issuetruck/markdown.py:134 | three slash-free parts joined by slashes split back into those three parts |
| Markdown.DateOfDigits | issuetruck/markdown.py:133-137 | slashed digit groups with surrounding whitespace read as the date of their values when it is a valid date, and fail with an invalid-date error otherwise |
| Markdown.DateCodecInverts | issuetruck/markdown.py:133-137 | `parse_date` inverts the date encoders for present and absent dates, with any surrounding whitespace |
| Markdown.DateCodecSome | issuetruck/issue.py:94-99 | every valid date, rendered as dd/mm/yyyy, reads back as itself |
| Markdown.DateExample | tests/test_markdown.py:119-124 | `01/02/1987` reads as 1 February 1987 |
| Markdown.NoDateExamples | issuetruck/markdown.py:135-136 | "" and `09/02` read as no date |
| Markdown.InvalidDateExample | issuetruck/markdown.py:137 | `31/02/2023` fails: the date constructor rejects 31 February |
| Markdown.ParseTValues | issuetruck/markdown.py:93-111 | fewer than eight cells fail, as the source's IndexError does; an empty row fails with a missing-cell error |
| Markdown.RowFields | issuetruck/markdown.py:98-111 | a row that parses has at least eight cells, and each field is its cell, read by the codec in the source's position order |
| Markdown.RowOfCells | tests/test_markdown.py:127-141 | eight or more cells that each decode give the row of the decoded values |
| Markdown.StartRecord | issuetruck/markdown.py:25-30 | an h1 line succeeds exactly when its heading parses, and then appends a fresh default record and clears both flags |
| Markdown.ReadRow | issuetruck/markdown.py:36-45 | a data row succeeds exactly when its cells decode, and then fills the current record's table fields |
| Markdown.FillRow | issuetruck/markdown.py:37-45 | filling a row changes only the current record, sets its eight table fields from the row and turns on the content flag |
| Markdown.WithCurrent | issuetruck/markdown.py:32 | replacing the current record changes only the last record of the list and neither flag |
| Markdown.Step | issuetruck/markdown.py:24-48 | one pass of the loop body as a function; `Markdown.ReadLine` proves the loop body equal to it and the Step lemmas state each case |
| Markdown.Run | issuetruck/markdown.py:23-48 | the loop as a fold of `Step` that stops at the first error; `Markdown.RunCons`, `Markdown.RunAppend` and `Markdown.RunHeads` state its properties |
| Markdown.ParseLines | issuetruck/markdown.py:18-50 | the records left once the fold is over; `Markdown.ParseFile` proves the loop equal to it |
| Markdown.RunCons | issuetruck/markdown.py:23-48 | the first failing line stops the parse with its error; otherwise the parse goes on from the state that line left |
| Markdown.RunAt | issuetruck/markdown.py:23-48 | the same, for the line at any position in the file |
| Markdown.ReadLine | issuetruck/markdown.py:24-48 | one pass of the loop body, done stage by stage with a mutable record list and flags, equals the step function |
| Markdown.OnHeading | issuetruck/markdown.py:25-30 | the h1 stage of the loop body equals its stage function |
| Markdown.OnSubtitle | issuetruck/markdown.py:31-32 | the h2 stage of the loop body equals its stage function |
| Markdown.OnSeparator | issuetruck/markdown.py:33-34 | the separator stage of the loop body equals its stage function |
| Markdown.OnDataRow | issuetruck/markdown.py:35-45 | the data-row stage of the loop body equals its stage function |
| Markdown.OnContent | issuetruck/markdown.py:46-48 | the content stage of the loop body equals its stage function |
| Markdown.ParseFile | issuetruck/markdown.py:18-50 | the loop over the lines returns what folding the step function over them returns, the first error included |
| Markdown.StepHeading | issuetruck/markdown.py:25-30 | an h1 line fails when its heading does not parse, and otherwise appends a fresh record with the heading's id and title and clears both flags |
| Markdown.HeadingStages | issuetruck/markdown.py:25-30 | the h1 line's passage through all stages is just the start of a record |
| Markdown.StepSubtitle | issuetruck/markdown.py:31-32 | an h2 line sets the current record's subtitle, and is ignored before the first record |
| Markdown.StepSeparator | issuetruck/markdown.py:33-34 | a separator row only turns on the table flag |
| Markdown.StepDataRow | issuetruck/markdown.py:35-45 | a data row is ignored before a separator or before the first record, and is otherwise read into the current record |
| Markdown.ShortRowFails | issuetruck/markdown.py:36 | a data row with fewer than eight cells, read after a separator, fails |
| Markdown.StepContent | issuetruck/markdown.py:46-48 | an empty, paragraph or list line appends its trimmed text and a newline to the current record only when the content flag is on, a record exists and the line is not blank; otherwise nothing changes |
| Markdown.StepIgnored | issuetruck/markdown.py:23-48 | h3 and unknown lines change nothing |
| Markdown.TableFlagSticks | issuetruck/markdown.py:29-34 | only an h1 line clears the table flag; a separator sets it, and every other line keeps it |
| Markdown.StagesKeepTableFlag | issuetruck/markdown.py:29-34 | the same for every tag passed through the stages |
| Markdown.Heads | issuetruck/markdown.py:27 | the (id, title) pair of each record, in order |
| Markdown.StepHeads | issuetruck/markdown.py:25-48 | a line adds its own heading, if it is an h1, to the records' headings and changes no other record's heading |
| Markdown.RunHeads | issuetruck/markdown.py:23-48 | a successful parse adds the file's h1 headings, in file order, to the headings already read |
| Markdown.RecordsInDocumentOrder | issuetruck/markdown.py:18-50 | the records come out in the order of their headings in the file, one per heading |
| Markdown.RunAppend | issuetruck/markdown.py:23-48 | parsing two runs of lines one after the other is parsing the first, then the second from where the first stopped |
| Markdown.RunBeforeHeading | issuetruck/markdown.py:23-48 | lines before any heading succeed and produce no record and no content |
| Markdown.NoHeadingNoRecords | issuetruck/markdown.py:18-50 | a file without an h1 line gives no records |
| Markdown.PreambleIgnored | issuetruck/markdown.py:18-50 | lines before the first heading do not change the result |
| Markdown.RunFromHeading | issuetruck/markdown.py:25-30 | from an h1 line on, the result does not depend on the flags left by earlier lines |
| Markdown.ParseText | issuetruck/markdown.py:11-50 | the parse of a file's text: newlines translated, split into lines, then read; `RoundTrip.DumpParses` is stated over it |
| Markdown.TranslateNewlines | issuetruck/markdown.py:14 | reading in text mode leaves no carriage return, and changes nothing in text without one |
| Markdown.FileLines | issuetruck/markdown.py:23 | the lines of a file concatenate back to the file's text, and each one but the last ends in a newline |
| Markdown.FileLinesOfLines | issuetruck/markdown.py:23 | the split into lines is unique: lines that end in newlines split back into themselves |
| Markdown.Dump | issuetruck/markdown.py:140-143 | the empty list is dumped as the empty text |
| RoundTrip.TitleStep | issuetruck/markdown.py:25-30 | a rendered title line with an id >= 0 and a trimmed, dash-free title starts a record with that id and title |
| RoundTrip.TitleTag | issuetruck/issue.py:66-67 | a rendered title line is an h1 |
| RoundTrip.SubtitleStep | issuetruck/markdown.py:31-32 | a rendered subtitle line sets the current record's subtitle to the trimmed subtitle |
| RoundTrip.SubtitleTag | issuetruck/issue.py:70-71 | a rendered subtitle line is an h2 |
| RoundTrip.BlankStep | issuetruck/markdown.py:46-47 | the blank lines of a block change nothing |
| RoundTrip.HeadStep | issuetruck/issue.py:74-75 | the table head, read before the separator, changes nothing |
| RoundTrip.HeadLine | issuetruck/issue.py:74-75 | the table head line is classified as a data row |
| RoundTrip.SeparatorStep | issuetruck/issue.py:78-79 | the table separator turns on the table flag |
| RoundTrip.SeparatorLine | issuetruck/issue.py:78-79 | the table separator line is classified as a separator row |
| RoundTrip.DataRowCells | issuetruck/issue.py:122-123 | the data row is a bar followed by each of the eight padded cells between single spaces and a bar |
| RoundTrip.SplitCells | issuetruck/markdown.py:90 | splitting bar-free cells joined this way gives each cell with its spaces, then an empty last part |
| RoundTrip.PaddedCell | issuetruck/issue.py:123 | a trimmed value padded to any width and surrounded by spaces trims back to the value |
| RoundTrip.StatusCellReads | issuetruck/issue.py:123 | the status cell is bar-free and trims back to the status label |
| RoundTrip.OpenCellReads | issuetruck/issue.py:123 | the open-date cell is bar-free and trims back to the rendered date |
| RoundTrip.DoneCellReads | issuetruck/issue.py:123 | the done-date cell is bar-free and trims back to the rendered date |
| RoundTrip.CloseCellReads | issuetruck/issue.py:123 | the close-date cell is bar-free and trims back to the rendered date |
| RoundTrip.EnvironmentCellReads | issuetruck/issue.py:117-123 | a readable environment's cell is bar-free and trims back to the environment |
| RoundTrip.PriorityCellReads | issuetruck/issue.py:123 | the priority cell is bar-free and trims back to the priority label |
| RoundTrip.TypeCellReads | issuetruck/issue.py:123 | the type cell is bar-free and trims back to the type label |
| RoundTrip.MilestoneCellReads | issuetruck/issue.py:123 | a trimmed, bar-free, one-line milestone's cell is bar-free and trims back to the milestone, whether or not it starts with a version |
| RoundTrip.RowTData | issuetruck/markdown.py:89-90 | a data row whose fields are each written as their own cell, read with its newline, gives nine cells: the eight rendered values and an empty last one |
| RoundTrip.RowFieldsRead | issuetruck/markdown.py:93-111 | the cells of a readable record's data row decode to exactly that record's table fields |
| RoundTrip.MilestoneDropped | issuetruck/markdown.py:126-130 | a milestone written as its own cell but not starting with digits, dot, digits, dot, digits is read back as ""; the other seven table fields still come back |
| RoundTrip.RowStep | issuetruck/markdown.py:35-45 | after the separator, a readable record's data row fills the current record with that record's table fields |
| RoundTrip.RowSingleLine | issuetruck/issue.py:122-123 | a readable record's data row holds no newline and no carriage return |
| RoundTrip.ContentTag | issuetruck/markdown.py:46 | a content line of the kind the reader keeps is classified as empty, paragraph or list item |
| RoundTrip.ContentTrim | issuetruck/markdown.py:47-48 | such a line is not blank, and its trimmed text with a newline is the line itself |
| RoundTrip.ContentStep | issuetruck/markdown.py:46-48 | such a line, read with the content flag on, appends itself to the current record's content |
| RoundTrip.KeptLines | issuetruck/markdown.py:47 | the body lines the reader keeps: all but the blank ones, never more than the input |
| RoundTrip.ContentRun | issuetruck/markdown.py:46-48 | reading body lines after a data row appends the non-blank ones to the current record and changes nothing else |
| RoundTrip.BlockRun | issuetruck/markdown.py:23-48 | reading a readable record's rendered block appends that record, with the blank lines of its body dropped, and leaves both flags on |
| RoundTrip.BlockText | issuetruck/issue.py:48-63 | the block's lines concatenate to the rendered record |
| RoundTrip.BlockFull | issuetruck/markdown.py:23 | each line of a readable record's block ends in a newline and holds no other line break |
| RoundTrip.DumpText | issuetruck/markdown.py:140-143 | the dumped text is the concatenation of every record's block lines |
| RoundTrip.DumpFull | issuetruck/markdown.py:140-143 | every line of a dump of readable records ends in a newline and holds no other line break |
| RoundTrip.SavedAll | issuetruck/markdown.py:18-50 | what a dump of the list reads back as: one record per record, in the same order |
| RoundTrip.DumpRun | issuetruck/markdown.py:23-48 | reading the lines of a dump of readable records succeeds and appends each record, blank body lines dropped |
| RoundTrip.Readable | issuetruck/markdown.py:23-48 | the records the parser reads back: a non-negative id, a trimmed dash-free one-line title, a trimmed one-line subtitle, a row whose environment and milestone survive their cells, and a body of content and blank lines each ending in a line break |
| RoundTrip.DumpParses | issuetruck/markdown.py:140-143 | parsing a dump of readable records gives back every record, field for field, with only the blank lines of each body dropped |
| RoundTrip.KeptNone | issuetruck/markdown.py:47 | no line is dropped from a body whose lines are all non-blank content lines |
| RoundTrip.SavedCanonical | issuetruck/markdown.py:46-48 | a record whose body lines are all non-blank content lines is read back unchanged |
| RoundTrip.DumpParsesExactly | issuetruck/markdown.py:18-50 | parsing a dump of readable records whose bodies have no blank lines gives back exactly the list |
| RoundTrip.SavedLines | issuetruck/markdown.py:46-48 | a record read back has as its body lines exactly the non-blank body lines of the record written |
| RoundTrip.SavedStable | issuetruck/markdown.py:46-48 | a record read back is readable again, and reading it back once more changes nothing |
| RoundTrip.DumpStable | issuetruck/markdown.py:140-143 | once read back, a list survives any further dump and parse unchanged |
| Composition.ComposeEmpty | issuetruck/compose.py:6 | the composition of no functions is the identity |
| Composition.ComposePair | tests/test_compose.py:4-18 | `compose(f, g)(x)` is `g(f(x))`: functions apply left to right |
| Composition.ComposeOrderMatters | tests/test_compose.py:8-16 | add 3 then multiply by 5 gives 20 from 1; the other order gives 8 |
| Composition.ComposeIsPass | issuetruck/compose.py:5-6 | a composition applied to x folds x through the functions in sequence order |
| Composition.ComposeLast | issuetruck/compose.py:6 | the last function applies to the composition of all before it |
| Composition.ComposeAppend | issuetruck/compose.py:5-6 | composing a concatenation applies the first part's composition, then the second's |
| Composition.PassAppend | issuetruck/compose.py:6 | folding through a concatenation is folding through each part in turn |
| Composition.PassSame | issuetruck/compose.py:6 | the fold through the first n functions depends only on those n functions |
| Seqs.Filter | issuetruck/issue.py:274-275 | a comprehension with a condition: keeps every copy of a satisfying element and no other, never more elements than the input |
| Seqs.FilterIsSubsequence | issuetruck/issue.py:274-275 | a comprehension keeps the input's order |
| Seqs.FilterPartition | issuetruck/issue.py:273-276 | a condition and its negation split the input: the lengths and the multisets add up to the input's |
| Seqs.FilterFilter | issuetruck/issue.py:296-311 | filtering twice keeps what satisfies both conditions |
| Seqs.FilterAppend | issuetruck/issue.py:274 | filtering a concatenation is filtering each part |
| Dates.MakeDate | issuetruck/markdown.py:137 | the date constructor succeeds exactly on a valid calendar date (Gregorian leap years, years 1 to 9999) and keeps its fields |
| Dates.FormatDate | issuetruck/issue.py:96 | ten characters, with slashes at positions 2 and 5, a leading digit, and no line break, bar or surrounding whitespace |
| Dates.FormatDateExamples | issuetruck/issue.py:325 | day and month are padded to two digits and the year is written with four: 04/03/2020, 05/04/2021, 06/05/2022 |
| Text.Trim | issuetruck/markdown.py:78 | `strip` leaves text with no whitespace at either end |
| Text.TrimPadded | issuetruck/markdown.py:115 | stripping recovers a trimmed text from any whitespace around it |
| Text.TrimEmpty | issuetruck/markdown.py:67 | a text strips to "" exactly when it is all whitespace |
| Text.Split | issuetruck/markdown.py:77 | a split gives at least one part, no part holds the separator, and a text without the separator is its own only part |
| Text.SplitCount | issuetruck/markdown.py:77 | a split gives one more part than there are separators |
| Text.JoinSplit | issuetruck/markdown.py:90 | joining the parts of a split with the separator gives back the text |
| Text.PadRight | issuetruck/issue.py:123 | left-justifying to a width keeps the text as a prefix and adds only spaces, up to the width |
| Text.Inner | issuetruck/markdown.py:90 | dropping the first and last characters, "" for texts shorter than two |
| Text.Take | issuetruck/issue.py:119 | a prefix of at most n characters, all of them when the text is shorter |
| Text.ZeroPadValue | issuetruck/issue.py:96 | a zero-padded decimal reads back as its number |
| Text.ParseInt | issuetruck/markdown.py:78 | `int()` on a text, base 10; `Text.ParseIntAccepts` states which texts it accepts, their value, and that every failure is the integer error |
| Text.ParseIntAccepts | issuetruck/markdown.py:78 | `int()` succeeds exactly when the stripped text is non-empty and, after one optional sign, is digit groups joined by single underscores; a success is negative only after a minus sign, and its magnitude is the value of the digits |
| Text.NotIntegerExamples | issuetruck/markdown.py:78 | `abc`, "", a lone `-`, `1__0` and `1.5` are rejected by `int()` |
| Text.NotIntegerAt | issuetruck/markdown.py:78 | a trimmed text with a character that is neither a digit nor an underscore (other than a leading sign) is rejected |
| Text.NotIntegerUnderscores | issuetruck/markdown.py:78 | two underscores in a row are rejected |
| Text.ParseIntDigits | issuetruck/markdown.py:78 | `int()` of a digit string with surrounding whitespace is the value of the digits |
| Text.ParseIntZeroPad | issuetruck/markdown.py:137 | `int()` of a zero-padded decimal with surrounding whitespace is its number |
| Text.DigitsValueOfDecimal | issuetruck/issue.py:67 | the decimal text of a number reads back as the number |
| Text.ConcatAppend | issuetruck/markdown.py:142-143 | writing two lists of blocks one after the other writes the two texts one after the other |
| App.Given | issuetruck/app.py:99-112 | an option that was not given keeps the current value, and a given one replaces it |
| App.CommentText | issuetruck/app.py:62-64 | the created content is "" exactly when the comment is "", and otherwise the formatted comment ending in a blank line |
| App.Store.constructor | issuetruck/app.py:49 | the store starts with the list read from the document |
| App.Store.Create | issuetruck/app.py:50-66 | the new record is the one the create rule builds, and it is inserted in front of the unchanged list |
| App.Created | issuetruck/app.py:50-65 | the record `create` makes; `App.CreatedFields` states its fields |
| App.CreatedFields | issuetruck/app.py:50-65 | a created record is Open, opened today with no done or close date, gets the default priority rule, and has content exactly when a comment was given |
| App.CreateLookup | issuetruck/app.py:50-66 | the new id is at least `start` and unused before, the new record is found by its id, and every other lookup gives what it gave before |
| App.Store.Edit | issuetruck/app.py:86-114 | an edit succeeds exactly when the id is found; an unknown id leaves the list unchanged, and a known one replaces only the first record with that id by its edited version |
| App.Edited | issuetruck/app.py:90-114 | the record after `edit`; `App.EditedInSteps`, `App.EditKeeps`, `App.EditNothing` and `App.EditIdempotent` state what it keeps and changes |
| App.StampDates | issuetruck/app.py:90-98 | the date-stamping stage sets the done and close dates as decided on the old status |
| App.SetFields | issuetruck/app.py:99-112 | the field stage replaces exactly the fields that were given |
| App.EditedInSteps | issuetruck/app.py:90-114 | stamping the dates, then setting the fields, then appending the comment, is the edit rule |
| App.EditNothing | issuetruck/app.py:86-114 | an edit that gives no option changes nothing |
| App.EditIdempotent | issuetruck/app.py:90-112 | an edit without a comment, done twice the same day, is the same as done once |
| App.EditKeeps | issuetruck/app.py:90-114 | an edit never changes the id or the open date and only extends the content; re-giving the current status (other than Open) keeps both dates, and giving Open clears both |
| App.EditLookup | issuetruck/app.py:86-114 | after the edit the id finds the edited record, the list keeps its length, and every other record is unchanged |
| App.FirstIsFound | issuetruck/issue.py:147-153 | the first record with an id is the one the lookup returns |
| App.Store.ChangeStatus | issuetruck/app.py:171-189 | a status change succeeds exactly when the id is found; an unknown id leaves the list unchanged, and a known one replaces only the first record with that id by its re-statused version |
| App.MoveIf | issuetruck/app.py:175-187 | one flag's guarded step: the record moved to its status when the flag is set (`App.MoveIfSet`), left as it is otherwise |
| App.MoveTo | issuetruck/app.py:175-187 | one status move: the new status is the target, and nothing but the status and the two dates changes |
| App.StatusChanged | issuetruck/app.py:175-189 | the record after `status`; `App.MovesInOrder` ties it to the four blocks and `App.StatusOutcome` states the result |
| App.MovesInOrder | issuetruck/app.py:175-187 | the four guarded steps taken in the order open, done, close, cancel are the status rule |
| App.MoveThroughAppend | issuetruck/app.py:175-187 | one more step after a run of steps is a move from where the run ended |
| App.MoveThroughStatus | issuetruck/app.py:175-187 | after a run of moves the status is the last target, or the old status when there is none |
| App.StatusOutcome | issuetruck/app.py:175-189 | the final status is the last flag set, in the order open, done, close, cancel, or the old one; only the status, the two dates and the content change; the content only grows; and a changed status is stamped with today |
| App.StatusNothing | issuetruck/app.py:175-189 | with no flag and no comment the record is unchanged |
| App.MoveToIdempotent | issuetruck/app.py:175-187 | moving twice to the same status is moving once |
| App.OneFlagIsEdit | issuetruck/app.py:175-187 | moving to a status is editing to that status, except that re-opening an open record does not clear its dates |
| App.OneFlagCommand | issuetruck/app.py:175-187 | a command with exactly one flag is a move to that flag's status |
| App.ArchivePlan | issuetruck/app.py:199-212 | there is nothing to write exactly when no record is archivable, which is when the command stops early |
| App.ArchivePlanIs | issuetruck/app.py:210-212 | the archive document gets the archived records followed by the previously archived ones, and the main document gets the kept records |
| App.ArchiveConserves | issuetruck/app.py:199-212 | the two documents hold between them exactly the records of the main document and of the old archive; the old archive is kept whole at the end |
| App.ArchiveMovesFinished | issuetruck/app.py:199-211 | every record moved into the archive document is Closed or Canceled |
| App.ArchiveKeepsNextId | issuetruck/app.py:212 | after archiving, the next new id is the one it was before |
| App.CommentLines | issuetruck/app.py:62-64 | a formatted one-line comment is read as its line followed by a blank line |
| App.CommentBody | issuetruck/app.py:113-114 | a readable comment is a readable body, read back without its blank line |
| App.KeptAppend | issuetruck/markdown.py:47 | dropping blank lines works line by line |
| App.AppendBody | issuetruck/app.py:113-114 | appending one readable body to another keeps it readable, and the read-back bodies append the same way |
| App.CommentAppended | issuetruck/app.py:113-114 | appending a comment to a readable body keeps it readable, and adds the comment line to what is read back |
| App.CreatedReadable | issuetruck/app.py:50-65 | a record created from readable options is readable |
| App.EditedReadable | issuetruck/app.py:90-114 | an edit with readable options keeps a record readable, and adds only the comment line to what its content reads back as |
| App.StatusChangedReadable | issuetruck/app.py:175-189 | a status change with a readable comment keeps a record readable, and adds only the comment line to what its content reads back as |
| App.CreateSaves | issuetruck/app.py:66-67 | the list written after a create reads back as itself, blank body lines dropped |
| App.EditSaves | issuetruck/app.py:113-115 | the list written after an edit reads back as itself, blank body lines dropped |
| App.StatusSaves | issuetruck/app.py:188-190 | the list written after a status change reads back as itself, blank body lines dropped |
| App.PartsReadable | issuetruck/app.py:199-212 | both documents written by the archive command hold readable records only |
| App.ArchiveSaves | issuetruck/app.py:210-212 | both documents written by the archive command read back as their record lists, blank body lines dropped |

## Left out

- `parse_path` (issuetruck/markdown.py:11-15): the file-existence check and the file open are I/O. A store starts from whatever list it is given.
- `dump_path` (issuetruck/markdown.py:140-143): only the concatenation of the rendered blocks is modelled, as `Markdown.Dump`, not the file write.
- `print_issues` (issuetruck/issue.py:314-316), every `print`, `version_callback` and the `typer` declarations in issuetruck/app.py: console output and command-line plumbing.
- `list_issue_cmd` (issuetruck/app.py:119-157): only its call to `apply_filters` is modelled (`Issues.ApplyFilters`); the counts it prints are output.
- `typer.confirm` (issuetruck/app.py:204-207): user interaction. The model is the path where the user confirms.
- The archive file name built from today's date (issuetruck/app.py:209): a file-system path. `App.ArchivePlan` takes the archive's previous records as a parameter.
- `date.today()` (issuetruck/app.py:58,62,91,93,95,114,181,184,187,189,208): the clock is the parameter `today`. For one command every call returns the same day.
- Records that are not readable: the round trip is only proved for readable records. First, a non-empty milestone that does not start with digits, dot, digits, dot, digits (`v1.0`, `beta`) is read back as "", so the next save drops it; `RoundTrip.MilestoneDropped` proves this for the row and `Markdown.NamedMilestoneExamples` shows it for `v1.0` and `beta`. The other exclusions are: a title, subtitle, environment or milestone that has whitespace at either end or holds a line break; a bar in the environment or the milestone; an environment longer than 11 characters; a dash in the title (`Markdown.H1DashUnreadable` shows such a title does not come back); a negative id; a body whose last line does not end in a line break (the next heading would be glued to it on the same line); and a body line that is neither a blank line nor a trimmed, non-blank paragraph or list-item line free of carriage returns.
- RoundTrip.DumpParses: blank lines in a body are not read back. The reader skips blank lines (issuetruck/markdown.py:47), and every comment the commands append ends in a blank line. The theorem states the round trip up to that one loss. `RoundTrip.DumpParsesExactly` gives exact equality for bodies without blank lines.
- Unicode: `\w`, `\d`, the digits of `int()` and `str.lower` are restricted to ASCII. `int()` also accepts a sign and single underscores between digits. There is no Unicode normalisation or case folding beyond ASCII.
- Text encodings: the document is read and written as UTF-8. The model works on `char` sequences, not bytes.
- Aliasing: a record is a value in a sequence, not a shared object. Nothing else in the source holds a reference to a record while a command updates it.
