/**
 * The `Issue` record, its Markdown block, and the list logic built on a
 * list of records: new ids and priorities, lookup by id, the fourteen list
 * filters and their composition, the archive split and the comment format.
 */
module Issues {
  import opened Results
  import opened Text
  import opened Dates
  import opened Seqs
  import opened Composition

  datatype Status = Open | Test | Closed | Canceled {
    /** The enum member's value; it fits the eight-character status column. */
    function Label(): (r: string)
      ensures |r| <= 8
    {
      match this
      case Open => "Open"
      case Test => "Test"
      case Closed => "Closed"
      case Canceled => "Canceled"
    }
  }

  datatype Priority = Low | Medium | High | Critical {
    function Label(): (r: string)
      ensures |r| <= 8
    {
      match this
      case Low => "Low"
      case Medium => "Medium"
      case High => "High"
      case Critical => "Critical"
    }
  }

  datatype IssueType = Bug | Feature | Improvement {
    function Label(): (r: string)
      ensures |r| <= 11
    {
      match this
      case Bug => "Bug"
      case Feature => "Feature"
      case Improvement => "Improvement"
    }
  }

  /** The dataclass `Issue`; `type` is called `issueType` here. */
  datatype Issue = Issue(
    id: int,
    title: string,
    openDate: Option<Date>,
    status: Status,
    issueType: IssueType,
    priority: Priority,
    subtitle: string,
    environment: string,
    milestone: string,
    doneDate: Option<Date>,
    closeDate: Option<Date>,
    content: string)

  /** `Issue(id=..., title=...)`: every other field takes its default. */
  function NewIssue(id: int, title: string): Issue {
    Issue(id, title, None, Open, Bug, Medium, "", "", "", None, None, "")
  }

  // ---------------------------------------------------------------------
  // The Markdown block of one record (`__str__` and the `_md_*` encoders)
  // ---------------------------------------------------------------------

  /** `_md_thead`, written column by column. */
  const TableHead := "|  Status  " + "| Open date  " + "| Done date  " + "| Close date " + "| Environment "
    + "| Priority " + "|    Type     " + "|  Milestone  " + "|"

  /** `_md_tsep`, written column by column. */
  const TableSeparator := "| -------- " + "| ---------- " + "| ---------- " + "| ---------- " + "| ----------- "
    + "| -------- " + "| ----------- " + "| ----------- " + "|"

  function TitleLine(i: Issue): string {
    "# " + IntText(i.id) + " - " + i.title
  }

  /** `""` stands for "no subtitle line". */
  function SubtitleLine(i: Issue): string {
    if i.subtitle != "" then "## " + i.subtitle else ""
  }

  /** A date as `dd/mm/yyyy`, or `""` when there is none. */
  function DateText(d: Option<Date>): (r: string)
    ensures d.None? ==> r == ""
    ensures d.Some? ==> |r| == 10
  {
    if d.Some? then FormatDate(d.value) else ""
  }

  /** `environment[:11]`. */
  function EnvironmentText(i: Issue): string {
    Take(i.environment, 11)
  }

  /** The table's data row; only the open date is not padded. */
  function DataRow(i: Issue): string {
    "| " + PadRight(i.status.Label(), 8) + " | " + DateText(i.openDate)
    + " | " + PadRight(DateText(i.doneDate), 10) + " | " + PadRight(DateText(i.closeDate), 10)
    + " | " + PadRight(EnvironmentText(i), 11) + " | " + PadRight(i.priority.Label(), 8)
    + " | " + PadRight(i.issueType.Label(), 11) + " | " + PadRight(i.milestone, 11) + " |"
  }

  /** The list that `__str__` joins, with the `None` entries left out. */
  function Layout(title: string, subtitle: string, head: string, separator: string, row: string, content: string): seq<string> {
    [title]
    + (if subtitle != "" then [subtitle] else [])
    + ["", head, separator, row, ""]
    + (if content != "" then [content] else [])
    + (if content == "" then [""] else [])
  }

  /** `str(issue)`. */
  function Render(i: Issue): string {
    Join(Layout(TitleLine(i), SubtitleLine(i), TableHead, TableSeparator, DataRow(i), i.content), "\n")
  }

  lemma JoinTail(head: string, separator: string, row: string, content: string)
    ensures Join(["", head, separator, row, "", content], "\n")
      == "\n" + head + "\n" + separator + "\n" + row + "\n\n" + content
  {
    JoinCons("", [content], "\n");
    JoinCons(row, ["", content], "\n");
    JoinCons(separator, [row, "", content], "\n");
    JoinCons(head, [separator, row, "", content], "\n");
    JoinCons("", [head, separator, row, "", content], "\n");
  }

  lemma JoinLayout(title: string, subtitle: string, head: string, separator: string, row: string, content: string)
    ensures Join(Layout(title, subtitle, head, separator, row, content), "\n")
      == title + "\n" + (if subtitle != "" then subtitle + "\n" else "")
         + "\n" + head + "\n" + separator + "\n" + row + "\n\n" + content
  {
    var tail := ["", head, separator, row, "", content];
    var sub := if subtitle != "" then [subtitle] else [];
    LayoutLines(title, subtitle, head, separator, row, content);
    JoinTail(head, separator, row, content);
    JoinSubtitle(subtitle, tail);
    JoinCons(title, sub + tail, "\n");
  }

  /** The content takes the last line whether it is empty or not. */
  lemma LayoutLines(title: string, subtitle: string, head: string, separator: string, row: string, content: string)
    ensures Layout(title, subtitle, head, separator, row, content)
      == [title] + ((if subtitle != "" then [subtitle] else []) + ["", head, separator, row, "", content])
  {
  }

  lemma JoinSubtitle(subtitle: string, tail: seq<string>)
    requires tail != []
    ensures Join((if subtitle != "" then [subtitle] else []) + tail, "\n")
      == (if subtitle != "" then subtitle + "\n" else "") + Join(tail, "\n")
  {
    if subtitle != "" {
      JoinCons(subtitle, tail, "\n");
    } else {
      assert [] + tail == tail;
    }
  }

  /** The block's fixed layout: it ends in the content, empty or not, after one blank line. */
  lemma RenderLayout(i: Issue)
    ensures Render(i)
      == TitleLine(i) + "\n"
         + (if i.subtitle != "" then "## " + i.subtitle + "\n" else "")
         + "\n" + TableHead + "\n" + TableSeparator + "\n" + DataRow(i) + "\n\n" + i.content
  {
    JoinLayout(TitleLine(i), SubtitleLine(i), TableHead, TableSeparator, DataRow(i), i.content);
  }

  /**
   * The data row lines up with the header whenever the milestone fits its
   * column; a missing open date makes it ten characters shorter.
   */
  lemma DataRowWidth(i: Issue)
    requires |i.milestone| <= 11
    ensures |DataRow(i)| == |TableHead| - (if i.openDate.None? then 10 else 0)
  {
    assert |TableHead| == 104;
    assert |PadRight(i.status.Label(), 8)| == 8;
    assert |PadRight(DateText(i.doneDate), 10)| == 10;
    assert |PadRight(DateText(i.closeDate), 10)| == 10;
    assert |PadRight(EnvironmentText(i), 11)| == 11;
    assert |PadRight(i.priority.Label(), 8)| == 8;
    assert |PadRight(i.issueType.Label(), 11)| == 11;
    assert |PadRight(i.milestone, 11)| == 11;
  }

  // ---------------------------------------------------------------------
  // New ids, default priorities and lookup by id
  // ---------------------------------------------------------------------

  /** `max(issue.id for issue in issues)`. */
  function MaxId(issues: seq<Issue>): (r: int)
    requires issues != []
    ensures forall k :: 0 <= k < |issues| ==> issues[k].id <= r
    ensures exists k :: 0 <= k < |issues| && issues[k].id == r
  {
    if |issues| == 1 then issues[0].id
    else
      var rest := MaxId(issues[1..]);
      assert forall k :: 1 <= k < |issues| ==> issues[k] == issues[1..][k - 1];
      if issues[0].id >= rest then issues[0].id else rest
  }

  /**
   * `get_new_id`: the least id that is at least `start` and above every
   * existing id.
   */
  function GetNewId(issues: seq<Issue>, start: int): (r: int)
    ensures r >= start
    ensures forall k :: 0 <= k < |issues| ==> issues[k].id < r
    ensures r == start || exists k :: 0 <= k < |issues| && issues[k].id == r - 1
    ensures issues == [] ==> r == start
  {
    if |issues| == 0 then start
    else
      var m := MaxId(issues);
      if start >= m + 1 then start else m + 1
  }

  /** `get_new_priority`: an explicit priority wins; otherwise it follows the type. */
  function GetNewPriority(fromCli: Option<Priority>, issueType: Option<IssueType>): (r: Priority)
    ensures fromCli.Some? ==> r == fromCli.value
    ensures fromCli.None? && issueType == Some(Improvement) ==> r == Low
    ensures fromCli.None? && issueType != Some(Improvement) ==> r == Medium
  {
    if fromCli.Some? then fromCli.value
    else if issueType == Some(Improvement) then Low
    else Medium
  }

  /** `[issue.id for issue in issues].index(issue_id)`, with `None` for `ValueError`. */
  function IndexOfId(issues: seq<Issue>, id: int): (r: Option<nat>)
    ensures r.None? <==> forall k :: 0 <= k < |issues| ==> issues[k].id != id
    ensures r.Some? ==> r.value < |issues| && issues[r.value].id == id
    ensures r.Some? ==> forall k :: 0 <= k < r.value ==> issues[k].id != id
  {
    if issues == [] then None
    else if issues[0].id == id then Some(0)
    else
      var rest := IndexOfId(issues[1..], id);
      assert forall k :: 1 <= k < |issues| ==> issues[k] == issues[1..][k - 1];
      if rest.None? then None else Some(rest.value + 1)
  }

  predicate IsFirstWithId(issues: seq<Issue>, id: int, k: int) {
    0 <= k < |issues| && issues[k].id == id && forall j :: 0 <= j < k ==> issues[j].id != id
  }

  /** `get_by_id`: the first record carrying the id, if there is one. */
  function GetById(issues: seq<Issue>, id: int): (r: Option<Issue>)
    ensures r.None? <==> forall k :: 0 <= k < |issues| ==> issues[k].id != id
    ensures r.Some? ==> r.value.id == id
    ensures r.Some? ==> exists k :: IsFirstWithId(issues, id, k) && issues[k] == r.value
  {
    var index := IndexOfId(issues, id);
    if index.None? then None else Some(issues[index.value])
  }

  // ---------------------------------------------------------------------
  // Filters
  // ---------------------------------------------------------------------

  /** The conditions that the `filter_by_*` functions test. */
  datatype Criterion =
    | StatusIs(status: Status)
    | TypeIs(issueType: IssueType)
    | PriorityIs(priority: Priority)
    | EnvironmentIs(environment: string)
    | MilestoneStartsWith(milestone: string)
    | TitleContains(title: string)

  predicate Satisfies(i: Issue, c: Criterion) {
    match c
    case StatusIs(s) => i.status == s
    case TypeIs(t) => i.issueType == t
    case PriorityIs(p) => i.priority == p
    case EnvironmentIs(e) => i.environment == e
    case MilestoneStartsWith(m) => StartsWith(i.milestone, m)
    case TitleContains(t) => Contains(Lower(i.title), Lower(t))
  }

  function Holds(c: Criterion): Issue -> bool {
    i => Satisfies(i, c)
  }

  /** The pattern that every `filter_by_*` follows: a comprehension when armed, the input otherwise. */
  function Gated(issues: seq<Issue>, armed: bool, c: Criterion): (r: seq<Issue>)
    ensures !armed ==> r == issues
    ensures armed ==> IsSubsequence(r, issues)
    ensures armed ==> forall x :: multiset(r)[x] == if Satisfies(x, c) then multiset(issues)[x] else 0
  {
    if armed then
      FilterIsSubsequence(issues, Holds(c));
      Filter(issues, Holds(c))
    else issues
  }

  /** An optional text argument arms its filter unless it is `None` or `""`. */
  predicate Armed(arg: Option<string>) {
    arg.Some? && arg.value != ""
  }

  function OrEmpty(arg: Option<string>): string {
    if arg.Some? then arg.value else ""
  }

  function FilterByStatusOpen(issues: seq<Issue>, isOpen: bool): (r: seq<Issue>)
    ensures !isOpen ==> r == issues
    ensures isOpen ==> IsSubsequence(r, issues)
    ensures isOpen ==> forall x :: multiset(r)[x] == if x.status == Open then multiset(issues)[x] else 0
  {
    Gated(issues, isOpen, StatusIs(Open))
  }

  function FilterByStatusClosed(issues: seq<Issue>, closed: bool): (r: seq<Issue>)
    ensures !closed ==> r == issues
    ensures closed ==> IsSubsequence(r, issues)
    ensures closed ==> forall x :: multiset(r)[x] == if x.status == Closed then multiset(issues)[x] else 0
  {
    Gated(issues, closed, StatusIs(Closed))
  }

  function FilterByStatusTest(issues: seq<Issue>, test: bool): (r: seq<Issue>)
    ensures !test ==> r == issues
    ensures test ==> IsSubsequence(r, issues)
    ensures test ==> forall x :: multiset(r)[x] == if x.status == Test then multiset(issues)[x] else 0
  {
    Gated(issues, test, StatusIs(Test))
  }

  function FilterByStatusCanceled(issues: seq<Issue>, canceled: bool): (r: seq<Issue>)
    ensures !canceled ==> r == issues
    ensures canceled ==> IsSubsequence(r, issues)
    ensures canceled ==> forall x :: multiset(r)[x] == if x.status == Canceled then multiset(issues)[x] else 0
  {
    Gated(issues, canceled, StatusIs(Canceled))
  }

  function FilterByTypeBug(issues: seq<Issue>, bug: bool): (r: seq<Issue>)
    ensures !bug ==> r == issues
    ensures bug ==> IsSubsequence(r, issues)
    ensures bug ==> forall x :: multiset(r)[x] == if x.issueType == Bug then multiset(issues)[x] else 0
  {
    Gated(issues, bug, TypeIs(Bug))
  }

  function FilterByTypeFeature(issues: seq<Issue>, feature: bool): (r: seq<Issue>)
    ensures !feature ==> r == issues
    ensures feature ==> IsSubsequence(r, issues)
    ensures feature ==> forall x :: multiset(r)[x] == if x.issueType == Feature then multiset(issues)[x] else 0
  {
    Gated(issues, feature, TypeIs(Feature))
  }

  function FilterByTypeImprovement(issues: seq<Issue>, improvement: bool): (r: seq<Issue>)
    ensures !improvement ==> r == issues
    ensures improvement ==> IsSubsequence(r, issues)
    ensures improvement ==> forall x :: multiset(r)[x] == if x.issueType == Improvement then multiset(issues)[x] else 0
  {
    Gated(issues, improvement, TypeIs(Improvement))
  }

  function FilterByPriorityLow(issues: seq<Issue>, low: bool): (r: seq<Issue>)
    ensures !low ==> r == issues
    ensures low ==> IsSubsequence(r, issues)
    ensures low ==> forall x :: multiset(r)[x] == if x.priority == Low then multiset(issues)[x] else 0
  {
    Gated(issues, low, PriorityIs(Low))
  }

  function FilterByPriorityMedium(issues: seq<Issue>, medium: bool): (r: seq<Issue>)
    ensures !medium ==> r == issues
    ensures medium ==> IsSubsequence(r, issues)
    ensures medium ==> forall x :: multiset(r)[x] == if x.priority == Medium then multiset(issues)[x] else 0
  {
    Gated(issues, medium, PriorityIs(Medium))
  }

  function FilterByPriorityHigh(issues: seq<Issue>, high: bool): (r: seq<Issue>)
    ensures !high ==> r == issues
    ensures high ==> IsSubsequence(r, issues)
    ensures high ==> forall x :: multiset(r)[x] == if x.priority == High then multiset(issues)[x] else 0
  {
    Gated(issues, high, PriorityIs(High))
  }

  function FilterByPriorityCritical(issues: seq<Issue>, critical: bool): (r: seq<Issue>)
    ensures !critical ==> r == issues
    ensures critical ==> IsSubsequence(r, issues)
    ensures critical ==> forall x :: multiset(r)[x] == if x.priority == Critical then multiset(issues)[x] else 0
  {
    Gated(issues, critical, PriorityIs(Critical))
  }

  function FilterByEnvironment(issues: seq<Issue>, environment: Option<string>): (r: seq<Issue>)
    ensures !Armed(environment) ==> r == issues
    ensures Armed(environment) ==> IsSubsequence(r, issues)
    ensures Armed(environment) ==> forall x ::
      multiset(r)[x] == if x.environment == environment.value then multiset(issues)[x] else 0
  {
    Gated(issues, Armed(environment), EnvironmentIs(OrEmpty(environment)))
  }

  function FilterByMilestone(issues: seq<Issue>, milestone: Option<string>): (r: seq<Issue>)
    ensures !Armed(milestone) ==> r == issues
    ensures Armed(milestone) ==> IsSubsequence(r, issues)
    ensures Armed(milestone) ==> forall x ::
      multiset(r)[x] == if StartsWith(x.milestone, milestone.value) then multiset(issues)[x] else 0
  {
    Gated(issues, Armed(milestone), MilestoneStartsWith(OrEmpty(milestone)))
  }

  function FilterByTitle(issues: seq<Issue>, title: Option<string>): (r: seq<Issue>)
    ensures !Armed(title) ==> r == issues
    ensures Armed(title) ==> IsSubsequence(r, issues)
    ensures Armed(title) ==> forall x ::
      multiset(r)[x] == if Contains(Lower(x.title), Lower(title.value)) then multiset(issues)[x] else 0
  {
    Gated(issues, Armed(title), TitleContains(OrEmpty(title)))
  }

  /** The keyword arguments of `apply_filters`; `NoFilters` holds their defaults. */
  datatype FilterOptions = FilterOptions(
    isOpen: bool, closed: bool, test: bool, canceled: bool,
    bug: bool, feature: bool, improvement: bool,
    low: bool, medium: bool, high: bool, critical: bool,
    environment: Option<string>, milestone: Option<string>, title: Option<string>)

  const NoFilters := FilterOptions(
    false, false, false, false, false, false, false, false, false, false, false, None, None, None)

  /** The `partial(filter_by_*, ...)` arguments of `compose`, in the order they are listed. */
  function Pipeline(o: FilterOptions): seq<seq<Issue> -> seq<Issue>> {
    [ xs => FilterByStatusOpen(xs, o.isOpen),
      xs => FilterByStatusClosed(xs, o.closed),
      xs => FilterByStatusTest(xs, o.test),
      xs => FilterByStatusCanceled(xs, o.canceled),
      xs => FilterByTypeBug(xs, o.bug),
      xs => FilterByTypeFeature(xs, o.feature),
      xs => FilterByTypeImprovement(xs, o.improvement),
      xs => FilterByPriorityLow(xs, o.low),
      xs => FilterByPriorityMedium(xs, o.medium),
      xs => FilterByPriorityHigh(xs, o.high),
      xs => FilterByPriorityCritical(xs, o.critical),
      xs => FilterByEnvironment(xs, o.environment),
      xs => FilterByMilestone(xs, o.milestone),
      xs => FilterByTitle(xs, o.title) ]
  }

  /** Whether a filter of the pipeline is armed, and what it then tests. */
  datatype Guard = Guard(armed: bool, criterion: Criterion)

  function Guards(o: FilterOptions): seq<Guard> {
    [ Guard(o.isOpen, StatusIs(Open)),
      Guard(o.closed, StatusIs(Closed)),
      Guard(o.test, StatusIs(Test)),
      Guard(o.canceled, StatusIs(Canceled)),
      Guard(o.bug, TypeIs(Bug)),
      Guard(o.feature, TypeIs(Feature)),
      Guard(o.improvement, TypeIs(Improvement)),
      Guard(o.low, PriorityIs(Low)),
      Guard(o.medium, PriorityIs(Medium)),
      Guard(o.high, PriorityIs(High)),
      Guard(o.critical, PriorityIs(Critical)),
      Guard(Armed(o.environment), EnvironmentIs(OrEmpty(o.environment))),
      Guard(Armed(o.milestone), MilestoneStartsWith(OrEmpty(o.milestone))),
      Guard(Armed(o.title), TitleContains(OrEmpty(o.title))) ]
  }

  /** The criteria of the armed guards, in order. */
  function Active(gs: seq<Guard>): seq<Criterion> {
    if gs == [] then []
    else
      var last := gs[|gs| - 1];
      Active(gs[..|gs| - 1]) + (if last.armed then [last.criterion] else [])
  }

  function ArmedCriteria(o: FilterOptions): seq<Criterion> {
    Active(Guards(o))
  }

  predicate SatisfiesAll(i: Issue, cs: seq<Criterion>) {
    forall k :: 0 <= k < |cs| ==> Satisfies(i, cs[k])
  }

  function HoldsAll(cs: seq<Criterion>): Issue -> bool {
    i => SatisfiesAll(i, cs)
  }

  /** The records satisfying every criterion of cs, in their original order. */
  function KeepAll(issues: seq<Issue>, cs: seq<Criterion>): (r: seq<Issue>)
    ensures IsSubsequence(r, issues)
    ensures forall x :: multiset(r)[x] == if SatisfiesAll(x, cs) then multiset(issues)[x] else 0
  {
    FilterIsSubsequence(issues, HoldsAll(cs));
    Filter(issues, HoldsAll(cs))
  }

  lemma PipelineStatusEntries(o: FilterOptions, k: nat, ys: seq<Issue>)
    requires 0 <= k < 4
    ensures Pipeline(o)[k](ys) == Gated(ys, Guards(o)[k].armed, Guards(o)[k].criterion)
  {
    var fs, gs := Pipeline(o), Guards(o);
    if k == 0 {
      assert fs[0](ys) == FilterByStatusOpen(ys, o.isOpen) == Gated(ys, o.isOpen, StatusIs(Open));
      assert gs[0] == Guard(o.isOpen, StatusIs(Open));
    } else if k == 1 {
      assert fs[1](ys) == FilterByStatusClosed(ys, o.closed) == Gated(ys, o.closed, StatusIs(Closed));
      assert gs[1] == Guard(o.closed, StatusIs(Closed));
    } else if k == 2 {
      assert fs[2](ys) == FilterByStatusTest(ys, o.test) == Gated(ys, o.test, StatusIs(Test));
      assert gs[2] == Guard(o.test, StatusIs(Test));
    } else {
      assert fs[3](ys) == FilterByStatusCanceled(ys, o.canceled) == Gated(ys, o.canceled, StatusIs(Canceled));
      assert gs[3] == Guard(o.canceled, StatusIs(Canceled));
    }
  }

  lemma PipelineTypeEntries(o: FilterOptions, k: nat, ys: seq<Issue>)
    requires 4 <= k < 7
    ensures Pipeline(o)[k](ys) == Gated(ys, Guards(o)[k].armed, Guards(o)[k].criterion)
  {
    var fs, gs := Pipeline(o), Guards(o);
    if k == 4 {
      assert fs[4](ys) == FilterByTypeBug(ys, o.bug) == Gated(ys, o.bug, TypeIs(Bug));
      assert gs[4] == Guard(o.bug, TypeIs(Bug));
    } else if k == 5 {
      assert fs[5](ys) == FilterByTypeFeature(ys, o.feature) == Gated(ys, o.feature, TypeIs(Feature));
      assert gs[5] == Guard(o.feature, TypeIs(Feature));
    } else {
      assert fs[6](ys) == FilterByTypeImprovement(ys, o.improvement) == Gated(ys, o.improvement, TypeIs(Improvement));
      assert gs[6] == Guard(o.improvement, TypeIs(Improvement));
    }
  }

  lemma PipelinePriorityEntries(o: FilterOptions, k: nat, ys: seq<Issue>)
    requires 7 <= k < 11
    ensures Pipeline(o)[k](ys) == Gated(ys, Guards(o)[k].armed, Guards(o)[k].criterion)
  {
    var fs, gs := Pipeline(o), Guards(o);
    if k == 7 {
      assert fs[7](ys) == FilterByPriorityLow(ys, o.low) == Gated(ys, o.low, PriorityIs(Low));
      assert gs[7] == Guard(o.low, PriorityIs(Low));
    } else if k == 8 {
      assert fs[8](ys) == FilterByPriorityMedium(ys, o.medium) == Gated(ys, o.medium, PriorityIs(Medium));
      assert gs[8] == Guard(o.medium, PriorityIs(Medium));
    } else if k == 9 {
      assert fs[9](ys) == FilterByPriorityHigh(ys, o.high) == Gated(ys, o.high, PriorityIs(High));
      assert gs[9] == Guard(o.high, PriorityIs(High));
    } else {
      assert fs[10](ys) == FilterByPriorityCritical(ys, o.critical) == Gated(ys, o.critical, PriorityIs(Critical));
      assert gs[10] == Guard(o.critical, PriorityIs(Critical));
    }
  }

  lemma PipelineTextEntries(o: FilterOptions, k: nat, ys: seq<Issue>)
    requires 11 <= k < 14
    ensures Pipeline(o)[k](ys) == Gated(ys, Guards(o)[k].armed, Guards(o)[k].criterion)
  {
    var fs, gs := Pipeline(o), Guards(o);
    if k == 11 {
      assert fs[11](ys) == FilterByEnvironment(ys, o.environment) == Gated(ys, Armed(o.environment), EnvironmentIs(OrEmpty(o.environment)));
      assert gs[11] == Guard(Armed(o.environment), EnvironmentIs(OrEmpty(o.environment)));
    } else if k == 12 {
      assert fs[12](ys) == FilterByMilestone(ys, o.milestone) == Gated(ys, Armed(o.milestone), MilestoneStartsWith(OrEmpty(o.milestone)));
      assert gs[12] == Guard(Armed(o.milestone), MilestoneStartsWith(OrEmpty(o.milestone)));
    } else {
      assert fs[13](ys) == FilterByTitle(ys, o.title) == Gated(ys, Armed(o.title), TitleContains(OrEmpty(o.title)));
      assert gs[13] == Guard(Armed(o.title), TitleContains(OrEmpty(o.title)));
    }
  }

  /** Each entry of the pipeline is its guard's gated filter. */
  lemma PipelineIsGuarded(o: FilterOptions)
    ensures |Pipeline(o)| == |Guards(o)| == 14
    ensures forall k, ys :: 0 <= k < 14 ==>
      Pipeline(o)[k](ys) == Gated(ys, Guards(o)[k].armed, Guards(o)[k].criterion)
  {
    forall k, ys | 0 <= k < 14
      ensures Pipeline(o)[k](ys) == Gated(ys, Guards(o)[k].armed, Guards(o)[k].criterion)
    {
      if k < 4 {
        PipelineStatusEntries(o, k, ys);
      } else if k < 7 {
        PipelineTypeEntries(o, k, ys);
      } else if k < 11 {
        PipelinePriorityEntries(o, k, ys);
      } else {
        PipelineTextEntries(o, k, ys);
      }
    }
  }

  /** Gating the records that satisfy cs by one more criterion c. */
  lemma KeepOneMore(issues: seq<Issue>, cs: seq<Criterion>, c: Criterion)
    ensures Gated(KeepAll(issues, cs), true, c) == KeepAll(issues, cs + [c])
  {
    var after := cs + [c];
    FilterFilter(issues, HoldsAll(cs), Holds(c));
    forall k | 0 <= k < |issues|
      ensures Both(HoldsAll(cs), Holds(c))(issues[k]) == HoldsAll(after)(issues[k])
    {
      var x := issues[k];
      if SatisfiesAll(x, cs) && Satisfies(x, c) {
        forall j | 0 <= j < |after| ensures Satisfies(x, after[j]) {
          if j < |cs| {
            assert after[j] == cs[j];
          }
        }
      }
      if SatisfiesAll(x, after) {
        assert after[|cs|] == c;
        forall j | 0 <= j < |cs| ensures Satisfies(x, cs[j]) {
          assert after[j] == cs[j];
        }
      }
    }
    FilterSameCondition(issues, Both(HoldsAll(cs), Holds(c)), HoldsAll(after));
  }

  lemma ActiveStep(gs: seq<Guard>, n: nat)
    requires 0 < n <= |gs|
    ensures Active(gs[..n]) == Active(gs[..n - 1]) + (if gs[n - 1].armed then [gs[n - 1].criterion] else [])
  {
    assert gs[..n][..n - 1] == gs[..n - 1];
  }

  lemma {:induction false} PassGuarded(issues: seq<Issue>, fs: seq<seq<Issue> -> seq<Issue>>, gs: seq<Guard>, n: nat)
    requires |fs| == |gs| && n <= |fs|
    requires forall k, ys :: 0 <= k < |fs| ==> fs[k](ys) == Gated(ys, gs[k].armed, gs[k].criterion)
    ensures Pass(issues, fs, n) == KeepAll(issues, Active(gs[..n]))
  {
    if n == 0 {
      assert gs[..0] == [];
      FilterAll(issues, HoldsAll([]));
    } else {
      PassGuarded(issues, fs, gs, n - 1);
      var before := Active(gs[..n - 1]);
      var g := gs[n - 1];
      ActiveStep(gs, n);
      assert Pass(issues, fs, n) == Gated(KeepAll(issues, before), g.armed, g.criterion);
      if g.armed {
        assert Active(gs[..n]) == before + [g.criterion];
        KeepOneMore(issues, before, g.criterion);
      } else {
        assert before + [] == before;
        assert Active(gs[..n]) == before;
      }
    }
  }

  /** Composing gated filters keeps the records that satisfy every armed criterion. */
  lemma ComposeGuarded(issues: seq<Issue>, fs: seq<seq<Issue> -> seq<Issue>>, gs: seq<Guard>)
    requires |fs| == |gs|
    requires forall k, ys :: 0 <= k < |fs| ==> fs[k](ys) == Gated(ys, gs[k].armed, gs[k].criterion)
    ensures Compose(fs)(issues) == KeepAll(issues, Active(gs))
  {
    ComposeIsPass(fs, issues);
    PassGuarded(issues, fs, gs, |gs|);
    assert gs[..|gs|] == gs;
  }

  /**
   * `apply_filters`: `compose` of the fourteen filters, applied to the list.
   * It keeps, in order, exactly the records that satisfy every armed filter.
   */
  function ApplyFilters(issues: seq<Issue>, o: FilterOptions): (r: seq<Issue>)
    ensures r == KeepAll(issues, ArmedCriteria(o))
  {
    PipelineIsGuarded(o);
    ComposeGuarded(issues, Pipeline(o), Guards(o));
    Compose(Pipeline(o))(issues)
  }

  /** Which criteria are armed matters; the order they are tested in does not. */
  lemma KeepAllOrderIndependent(issues: seq<Issue>, cs: seq<Criterion>, ds: seq<Criterion>)
    requires forall c :: c in cs <==> c in ds
    ensures KeepAll(issues, cs) == KeepAll(issues, ds)
  {
    forall k | 0 <= k < |issues| ensures HoldsAll(cs)(issues[k]) == HoldsAll(ds)(issues[k]) {
      var x := issues[k];
      if SatisfiesAll(x, cs) {
        forall j | 0 <= j < |ds| ensures Satisfies(x, ds[j]) {
          assert ds[j] in cs;
        }
      }
      if SatisfiesAll(x, ds) {
        forall j | 0 <= j < |cs| ensures Satisfies(x, cs[j]) {
          assert cs[j] in ds;
        }
      }
    }
    FilterSameCondition(issues, HoldsAll(cs), HoldsAll(ds));
  }

  /** `apply_filters(issues)` with every argument at its default returns the list unchanged. */
  lemma ApplyNoFilters(issues: seq<Issue>)
    ensures ApplyFilters(issues, NoFilters) == issues
  {
    NoFiltersNoCriteria();
    FilterAll(issues, HoldsAll([]));
  }

  /** With every argument at its default no guard of the pipeline is armed. */
  lemma NoFiltersNoCriteria()
    ensures ArmedCriteria(NoFilters) == []
  {
    var gs := Guards(NoFilters);
    assert forall k :: 0 <= k < |gs| ==> !gs[k].armed;
    ActiveNoneArmed(gs, |gs|);
    assert gs[..|gs|] == gs;
  }

  lemma {:induction false} ActiveNoneArmed(gs: seq<Guard>, n: nat)
    requires n <= |gs| && forall k :: 0 <= k < |gs| ==> !gs[k].armed
    ensures Active(gs[..n]) == []
  {
    if n > 0 {
      ActiveNoneArmed(gs, n - 1);
      assert gs[..n][..n - 1] == gs[..n - 1];
    }
  }

  lemma {:induction false} ActiveHas(gs: seq<Guard>, k: nat)
    requires k < |gs| && gs[k].armed
    ensures gs[k].criterion in Active(gs)
    decreases |gs|
  {
    var n := |gs| - 1;
    if k < n {
      ActiveHas(gs[..n], k);
    }
  }

  /** Two different statuses armed together exclude every record. */
  lemma TwoStatusesKeepNothing(issues: seq<Issue>, o: FilterOptions, i: nat, j: nat)
    requires i < 4 && j < 4 && i != j && Guards(o)[i].armed && Guards(o)[j].armed
    ensures ApplyFilters(issues, o) == []
  {
    var gs := Guards(o);
    ActiveHas(gs, i);
    ActiveHas(gs, j);
    var cs := ArmedCriteria(o);
    forall k | 0 <= k < |issues| ensures !HoldsAll(cs)(issues[k]) {
      var a :| 0 <= a < |cs| && cs[a] == gs[i].criterion;
      var b :| 0 <= b < |cs| && cs[b] == gs[j].criterion;
      assert gs[i].criterion.status != gs[j].criterion.status;
    }
    FilterNone(issues, HoldsAll(cs));
  }

  // ---------------------------------------------------------------------
  // Archive split and comments
  // ---------------------------------------------------------------------

  /** `max(issue.id for issue in issues) if issues else 0`. */
  function TopId(issues: seq<Issue>): int {
    if issues == [] then 0 else MaxId(issues)
  }

  /** `archive_condition`: closed or canceled, and not holding the highest id. */
  predicate Archivable(i: Issue, topId: int) {
    (i.status == Closed || i.status == Canceled) && i.id != topId
  }

  function ToArchive(topId: int): Issue -> bool {
    i => Archivable(i, topId)
  }

  /** `split_issues_to_archive`: (records to archive, records to keep), both in order. */
  function SplitToArchive(issues: seq<Issue>): (r: (seq<Issue>, seq<Issue>))
    ensures IsSubsequence(r.0, issues) && IsSubsequence(r.1, issues)
    ensures |r.0| + |r.1| == |issues|
    ensures multiset(r.0) + multiset(r.1) == multiset(issues)
    ensures forall x :: multiset(r.0)[x] == if Archivable(x, TopId(issues)) then multiset(issues)[x] else 0
    ensures forall x :: x in r.0 ==> x.status == Closed || x.status == Canceled
    ensures forall k :: 0 <= k < |issues| && issues[k].id == TopId(issues) ==> issues[k] in r.1
  {
    var top := TopId(issues);
    FilterIsSubsequence(issues, ToArchive(top));
    FilterIsSubsequence(issues, Not(ToArchive(top)));
    FilterPartition(issues, ToArchive(top));
    ArchivedAreFinished(issues, top);
    TopStays(issues, top);
    (Filter(issues, ToArchive(top)), Filter(issues, Not(ToArchive(top))))
  }

  lemma ArchivedAreFinished(issues: seq<Issue>, top: int)
    ensures forall x :: x in Filter(issues, ToArchive(top)) ==> x.status == Closed || x.status == Canceled
  {
    var a := Filter(issues, ToArchive(top));
    forall x | x in a ensures x.status == Closed || x.status == Canceled {
      assert multiset(a)[x] > 0;
    }
  }

  lemma TopStays(issues: seq<Issue>, top: int)
    ensures forall k :: 0 <= k < |issues| && issues[k].id == top ==> issues[k] in Filter(issues, Not(ToArchive(top)))
  {
    var b := Filter(issues, Not(ToArchive(top)));
    forall k | 0 <= k < |issues| && issues[k].id == top ensures issues[k] in b {
      assert multiset(issues)[issues[k]] > 0;
      assert Not(ToArchive(top))(issues[k]);
      assert multiset(b)[issues[k]] > 0;
    }
  }

  lemma MaxIdIs(issues: seq<Issue>, m: int, k: nat)
    requires k < |issues| && issues[k].id == m
    requires forall j :: 0 <= j < |issues| ==> issues[j].id <= m
    ensures MaxId(issues) == m
  {
  }

  lemma KeptBelowTop(issues: seq<Issue>, j: nat)
    requires issues != [] && j < |SplitToArchive(issues).1|
    ensures SplitToArchive(issues).1[j].id <= MaxId(issues)
  {
    var keep := SplitToArchive(issues).1;
    assert multiset(keep)[keep[j]] > 0;
    assert multiset(issues)[keep[j]] > 0;
    assert keep[j] in issues;
  }

  lemma IndexOf<T>(s: seq<T>, x: T) returns (b: nat)
    requires x in s
    ensures b < |s| && s[b] == x
  {
    b :| 0 <= b < |s| && s[b] == x;
  }

  lemma TopKept(issues: seq<Issue>) returns (b: nat)
    requires issues != []
    ensures b < |SplitToArchive(issues).1| && SplitToArchive(issues).1[b].id == MaxId(issues)
  {
    var keep := SplitToArchive(issues).1;
    var k :| 0 <= k < |issues| && issues[k].id == MaxId(issues);
    assert issues[k] in keep;
    b := IndexOf(keep, issues[k]);
  }

  /** Archiving never removes the highest id, so the next new id stays the same. */
  lemma SplitKeepsNewId(issues: seq<Issue>, start: int)
    ensures GetNewId(SplitToArchive(issues).1, start) == GetNewId(issues, start)
  {
    if issues != [] {
      var keep := SplitToArchive(issues).1;
      var b := TopKept(issues);
      forall j | 0 <= j < |keep| ensures keep[j].id <= MaxId(issues) {
        KeptBelowTop(issues, j);
      }
      MaxIdIs(keep, MaxId(issues), b);
    }
  }

  /** The operation named in a comment. */
  datatype Operation = CreateOp | EditOp | StatusOp {
    function Label(): string {
      match this
      case CreateOp => "create"
      case EditOp => "edit"
      case StatusOp => "status"
    }
  }

  /** `format_comment`: `dd/mm/yyyy - operation - message` followed by `end`. */
  function FormatComment(today: Date, op: Operation, message: string, end: string): (r: string)
    ensures |r| == 16 + |op.Label()| + |message| + |end|
    ensures r[..10] == FormatDate(today) && r[10..13] == " - "
    ensures r[13..13 + |op.Label()|] == op.Label() && r[13 + |op.Label()|..16 + |op.Label()|] == " - "
    ensures r[16 + |op.Label()|..|r| - |end|] == message && r[|r| - |end|..] == end
  {
    CommentParts(FormatDate(today), op.Label(), message, end);
    FormatDate(today) + " - " + op.Label() + " - " + message + end
  }

  /** The three comment lines of the tests, one per operation. */
  lemma FormatCommentExamples()
    ensures FormatComment(CalendarDate(4, 3, 2020), CreateOp, "message1", "ENDL") == "04/03/2020 - create - message1ENDL"
    ensures FormatComment(CalendarDate(5, 4, 2021), EditOp, "message2", "ENDL") == "05/04/2021 - edit - message2ENDL"
    ensures FormatComment(CalendarDate(6, 5, 2022), StatusOp, "message3", "ENDL") == "06/05/2022 - status - message3ENDL"
  {
    FormatDateExamples();
    CreateComment();
    EditComment();
    StatusComment();
  }

  lemma CreateComment()
    ensures "04/03/2020" + " - " + "create" + " - " + "message1" + "ENDL" == "04/03/2020 - create - message1ENDL"
  {
    CommentLine("04/03/2020", "create", "message1", "ENDL", "04/03/2020 - create - message1ENDL");
  }

  lemma EditComment()
    ensures "05/04/2021" + " - " + "edit" + " - " + "message2" + "ENDL" == "05/04/2021 - edit - message2ENDL"
  {
    CommentLine("05/04/2021", "edit", "message2", "ENDL", "05/04/2021 - edit - message2ENDL");
  }

  lemma StatusComment()
    ensures "06/05/2022" + " - " + "status" + " - " + "message3" + "ENDL" == "06/05/2022 - status - message3ENDL"
  {
    CommentLine("06/05/2022", "status", "message3", "ENDL", "06/05/2022 - status - message3ENDL");
  }

  /** A comment line spelled out character by character. */
  lemma CommentLine(d: string, l: string, m: string, e: string, t: string)
    requires |t| == |d| + 6 + |l| + |m| + |e|
    requires forall k :: 0 <= k < |t| ==> t[k] == (d + " - " + l + " - " + m + e)[k]
    ensures d + " - " + l + " - " + m + e == t
  {
  }

  lemma CommentParts(d: string, l: string, m: string, e: string)
    requires |d| == 10
    ensures var r := d + " - " + l + " - " + m + e;
      && |r| == 16 + |l| + |m| + |e|
      && r[..10] == d && r[10..13] == " - "
      && r[13..13 + |l|] == l && r[13 + |l|..16 + |l|] == " - "
      && r[16 + |l|..|r| - |e|] == m && r[|r| - |e|..] == e
  {
  }
}
