/**
 * The in-memory steps of the `create`, `edit`, `status` and `archive`
 * commands. Each command reads the list of records from the document,
 * changes it, and writes it back; here the list is the state of a `Store`,
 * and the day the command runs is a parameter.
 */
module App {
  import opened Results
  import opened Text
  import opened Dates
  import opened Issues
  import opened Markdown
  import opened RoundTrip

  /** `value if value is not None else current`: an option the command line may leave out. */
  function Given<T>(x: Option<T>, current: T): (r: T)
    ensures x.None? ==> r == current
    ensures x.Some? ==> r == x.value
  {
    if x.Some? then x.value else current
  }

  /** The text a command adds to a body: a formatted comment, or nothing for an empty comment. */
  function CommentText(today: Date, op: Operation, comment: string): (r: string)
    ensures r == "" <==> comment == ""
    ensures comment != "" ==> r == FormatComment(today, op, comment, "\n\n")
  {
    if comment != "" then FormatComment(today, op, comment, "\n\n") else ""
  }

  // ---------------------------------------------------------------------
  // create
  // ---------------------------------------------------------------------

  /** The options of `create` other than the title, the start id and the file. */
  datatype CreateRequest = CreateRequest(
    priority: Option<Priority>,
    issueType: IssueType,
    subtitle: string,
    environment: string,
    milestone: string,
    comment: string)

  /** The record `create` builds. */
  function Created(issues: seq<Issue>, title: string, q: CreateRequest, start: int, today: Date): Issue {
    Issue(
      GetNewId(issues, start), title, Some(today), Open, q.issueType,
      GetNewPriority(q.priority, Some(q.issueType)),
      q.subtitle, q.environment, q.milestone, None, None,
      CommentText(today, CreateOp, q.comment))
  }

  // ---------------------------------------------------------------------
  // edit
  // ---------------------------------------------------------------------

  /** The options of `edit`: `None` leaves a field as it is. */
  datatype EditRequest = EditRequest(
    title: Option<string>,
    subtitle: Option<string>,
    status: Option<Status>,
    environment: Option<string>,
    priority: Option<Priority>,
    issueType: Option<IssueType>,
    milestone: Option<string>,
    comment: string)

  /** An `edit` that supplies nothing. */
  const NoEdit := EditRequest(None, None, None, None, None, None, None, "")

  /**
   * The done date after `edit`: cleared when the new status is Open, set to
   * today when the status becomes Test, kept otherwise.
   */
  function EditedDoneDate(i: Issue, status: Option<Status>, today: Date): Option<Date> {
    if status == Some(Open) then None
    else if status == Some(Test) && i.status != Test then Some(today)
    else i.doneDate
  }

  /**
   * The close date after `edit`: cleared when the new status is Open, set to
   * today when the status becomes Closed or Canceled, kept otherwise.
   */
  function EditedCloseDate(i: Issue, status: Option<Status>, today: Date): Option<Date> {
    if status == Some(Open) then None
    else if (status == Some(Closed) || status == Some(Canceled)) && i.status != status.value then Some(today)
    else i.closeDate
  }

  /** The record after `edit`, field by field. */
  function Edited(i: Issue, e: EditRequest, today: Date): Issue {
    Issue(
      i.id,
      Given(e.title, i.title),
      i.openDate,
      Given(e.status, i.status),
      Given(e.issueType, i.issueType),
      Given(e.priority, i.priority),
      Given(e.subtitle, i.subtitle),
      Given(e.environment, i.environment),
      Given(e.milestone, i.milestone),
      EditedDoneDate(i, e.status, today),
      EditedCloseDate(i, e.status, today),
      i.content + CommentText(today, EditOp, e.comment))
  }

  // ---------------------------------------------------------------------
  // status
  // ---------------------------------------------------------------------

  /** The flags of `status`. */
  datatype StatusRequest = StatusRequest(open: bool, done: bool, close: bool, cancel: bool, comment: string)

  /**
   * Moving a record to a status: nothing happens when it already has it;
   * otherwise Open clears both dates, Test stamps the done date, and Closed
   * and Canceled stamp the close date.
   */
  function MoveTo(i: Issue, target: Status, today: Date): (r: Issue)
    ensures r.status == target
    ensures r.(status := i.status, doneDate := i.doneDate, closeDate := i.closeDate) == i
  {
    if i.status == target then i
    else match target
      case Open => i.(status := Open, closeDate := None, doneDate := None)
      case Test => i.(status := Test, doneDate := Some(today))
      case Closed => i.(status := Closed, closeDate := Some(today))
      case Canceled => i.(status := Canceled, closeDate := Some(today))
  }

  /** The statuses the flags ask for, in the order the command applies them. */
  function Targets(f: StatusRequest): seq<Status> {
    (if f.open then [Open] else []) + (if f.done then [Test] else [])
    + (if f.close then [Closed] else []) + (if f.cancel then [Canceled] else [])
  }

  /** The moves, one after the other. */
  function MoveThrough(i: Issue, targets: seq<Status>, today: Date): Issue
    decreases |targets|
  {
    if targets == [] then i else MoveThrough(MoveTo(i, targets[0], today), targets[1..], today)
  }

  /** The record after `status`. */
  function StatusChanged(i: Issue, f: StatusRequest, today: Date): Issue {
    var moved := MoveThrough(i, Targets(f), today);
    moved.(content := moved.content + CommentText(today, StatusOp, f.comment))
  }

  // ---------------------------------------------------------------------
  // The store and its commands
  // ---------------------------------------------------------------------

  /** The records of the main document while a command runs. */
  class Store {
    var issues: seq<Issue>

    /** `parse_path` has read the records. */
    constructor (issues: seq<Issue>)
      ensures this.issues == issues
    {
      this.issues := issues;
    }

    /** `create_issue_cmd`: a new open record, stamped today, goes to the front. */
    method Create(title: string, q: CreateRequest, start: int, today: Date) returns (created: Issue)
      modifies this
      ensures created == Created(old(issues), title, q, start, today)
      ensures issues == [created] + old(issues)
    {
      var newId := GetNewId(issues, start);
      var newPriority := GetNewPriority(q.priority, Some(q.issueType));
      var content := if q.comment != "" then FormatComment(today, CreateOp, q.comment, "\n\n") else "";
      created := Issue(newId, title, Some(today), Open, q.issueType, newPriority,
                       q.subtitle, q.environment, q.milestone, None, None, content);
      issues := [created] + issues;
    }

    /**
     * `edit_issue_cmd`: the first record with the id is changed, field by
     * field, with the dates decided on its old status; an unknown id changes
     * nothing.
     */
    method Edit(id: int, e: EditRequest, today: Date) returns (found: bool)
      modifies this
      ensures found <==> GetById(old(issues), id).Some?
      ensures !found ==> issues == old(issues)
      ensures found ==> issues == old(issues)[IndexOfId(old(issues), id).value :=
                                  Edited(old(issues)[IndexOfId(old(issues), id).value], e, today)]
    {
      var index := IndexOfId(issues, id);
      if index.None? {
        return false;
      }
      var k := index.value;
      var issue := StampDates(issues[k], e.status, today);
      issue := SetFields(issue, e);
      ghost var fields := issue;
      if e.comment != "" {
        issue := issue.(content := issue.content + FormatComment(today, EditOp, e.comment, "\n\n"));
      }
      assert issue == fields.(content := fields.content + CommentText(today, EditOp, e.comment));
      EditedInSteps(issues[k], e, today);
      assert issue == Edited(issues[k], e, today);
      issues := issues[k := issue];
      return true;
    }

    /**
     * `change_status`: the flags are applied in the order open, done,
     * close, cancel, each only when the status differs; an unknown id
     * changes nothing.
     */
    method ChangeStatus(id: int, f: StatusRequest, today: Date) returns (found: bool)
      modifies this
      ensures found <==> GetById(old(issues), id).Some?
      ensures !found ==> issues == old(issues)
      ensures found ==> issues == old(issues)[IndexOfId(old(issues), id).value :=
                                  StatusChanged(old(issues)[IndexOfId(old(issues), id).value], f, today)]
    {
      var index := IndexOfId(issues, id);
      if index.None? {
        return false;
      }
      var k := index.value;
      var issue := MoveIf(issues[k], f.open, Open, today);
      issue := MoveIf(issue, f.done, Test, today);
      issue := MoveIf(issue, f.close, Closed, today);
      issue := MoveIf(issue, f.cancel, Canceled, today);
      ghost var moved := issue;
      if f.comment != "" {
        issue := issue.(content := issue.content + FormatComment(today, StatusOp, f.comment, "\n\n"));
      }
      assert issue == moved.(content := moved.content + CommentText(today, StatusOp, f.comment));
      MovesInOrder(issues[k], f, today);
      assert issue == StatusChanged(issues[k], f, today);
      issues := issues[k := issue];
      return true;
    }
  }

  /** The first block of `edit`: the dates, decided on the old status. */
  method StampDates(issue: Issue, status: Option<Status>, today: Date) returns (r: Issue)
    ensures r == issue.(doneDate := EditedDoneDate(issue, status, today), closeDate := EditedCloseDate(issue, status, today))
  {
    r := issue;
    if status == Some(Test) && r.status != Test {
      r := r.(doneDate := Some(today));
    }
    if status == Some(Closed) && r.status != Closed {
      r := r.(closeDate := Some(today));
    }
    if status == Some(Canceled) && r.status != Canceled {
      r := r.(closeDate := Some(today));
    }
    if status == Some(Open) {
      r := r.(doneDate := None, closeDate := None);
    }
  }

  /** The second block of `edit`: every field supplied replaces the record's. */
  method SetFields(issue: Issue, e: EditRequest) returns (r: Issue)
    ensures r == issue.(title := Given(e.title, issue.title), subtitle := Given(e.subtitle, issue.subtitle),
                        status := Given(e.status, issue.status), environment := Given(e.environment, issue.environment),
                        priority := Given(e.priority, issue.priority), issueType := Given(e.issueType, issue.issueType),
                        milestone := Given(e.milestone, issue.milestone))
  {
    r := issue;
    if e.title.Some? {
      r := r.(title := e.title.value);
    }
    if e.subtitle.Some? {
      r := r.(subtitle := e.subtitle.value);
    }
    if e.status.Some? {
      r := r.(status := e.status.value);
    }
    assert r == issue.(title := Given(e.title, issue.title), subtitle := Given(e.subtitle, issue.subtitle),
                       status := Given(e.status, issue.status));
    if e.environment.Some? {
      r := r.(environment := e.environment.value);
    }
    if e.priority.Some? {
      r := r.(priority := e.priority.value);
    }
    if e.issueType.Some? {
      r := r.(issueType := e.issueType.value);
    }
    if e.milestone.Some? {
      r := r.(milestone := e.milestone.value);
    }
  }

  /** The record after `edit` is the dates, then the fields, then the comment. */
  lemma EditedInSteps(i: Issue, e: EditRequest, today: Date)
    ensures var stamped := i.(doneDate := EditedDoneDate(i, e.status, today), closeDate := EditedCloseDate(i, e.status, today));
      var fields := stamped.(title := Given(e.title, stamped.title), subtitle := Given(e.subtitle, stamped.subtitle),
                          status := Given(e.status, stamped.status), environment := Given(e.environment, stamped.environment),
                          priority := Given(e.priority, stamped.priority), issueType := Given(e.issueType, stamped.issueType),
                          milestone := Given(e.milestone, stamped.milestone));
      Edited(i, e, today) == fields.(content := fields.content + CommentText(today, EditOp, e.comment))
  {
  }

  /** One flagged block of `change_status` as a value: the move to the target when the flag is set. */
  function MoveIfSet(i: Issue, flag: bool, target: Status, today: Date): Issue {
    if flag then MoveTo(i, target, today) else i
  }

  /** One block of `change_status`: when the flag is set and the status differs, move to the flag's status. */
  method MoveIf(issue: Issue, flag: bool, target: Status, today: Date) returns (r: Issue)
    ensures r == MoveIfSet(issue, flag, target, today)
  {
    r := issue;
    if flag && r.status != target {
      match target
      case Open => r := r.(status := Open, closeDate := None, doneDate := None);
      case Test => r := r.(status := Test, doneDate := Some(today));
      case Closed => r := r.(status := Closed, closeDate := Some(today));
      case Canceled => r := r.(status := Canceled, closeDate := Some(today));
    }
  }

  /** The four blocks of `change_status` are the moves to the flagged statuses, in order. */
  lemma MovesInOrder(i: Issue, f: StatusRequest, today: Date)
    ensures var moved := MoveIfSet(MoveIfSet(MoveIfSet(MoveIfSet(i, f.open, Open, today), f.done, Test, today),
                                             f.close, Closed, today), f.cancel, Canceled, today);
      StatusChanged(i, f, today) == moved.(content := moved.content + CommentText(today, StatusOp, f.comment))
  {
    var t0: seq<Status> := [];
    var t1 := t0 + (if f.open then [Open] else []);
    var t2 := t1 + (if f.done then [Test] else []);
    var t3 := t2 + (if f.close then [Closed] else []);
    var t4 := t3 + (if f.cancel then [Canceled] else []);
    MoveThroughLast(i, t0, Open, f.open, today);
    MoveThroughLast(i, t1, Test, f.done, today);
    MoveThroughLast(i, t2, Closed, f.close, today);
    MoveThroughLast(i, t3, Canceled, f.cancel, today);
    assert t4 == Targets(f);
  }

  /** One more move, when its flag is set. */
  lemma MoveThroughLast(i: Issue, targets: seq<Status>, t: Status, flag: bool, today: Date)
    ensures MoveThrough(i, targets + (if flag then [t] else []), today)
      == if flag then MoveTo(MoveThrough(i, targets, today), t, today) else MoveThrough(i, targets, today)
  {
    if flag {
      MoveThroughAppend(i, targets, t, today);
    } else {
      assert targets + [] == targets;
    }
  }

  lemma {:induction false} MoveThroughAppend(i: Issue, targets: seq<Status>, t: Status, today: Date)
    ensures MoveThrough(i, targets + [t], today) == MoveTo(MoveThrough(i, targets, today), t, today)
    decreases |targets|
  {
    if targets == [] {
      assert [] + [t] == [t];
      assert [t][1..] == [];
    } else {
      assert (targets + [t])[0] == targets[0];
      assert (targets + [t])[1..] == targets[1..] + [t];
      MoveThroughAppend(MoveTo(i, targets[0], today), targets[1..], t, today);
    }
  }

  // ---------------------------------------------------------------------
  // What the commands promise
  // ---------------------------------------------------------------------

  /**
   * The new record has an id no other record holds: the lookup by that id
   * finds it, and every other id finds what it found before.
   */
  lemma CreateLookup(issues: seq<Issue>, title: string, q: CreateRequest, start: int, today: Date, id: int)
    ensures var c := Created(issues, title, q, start, today);
      && c.id >= start && GetById(issues, c.id).None?
      && GetById([c] + issues, c.id) == Some(c)
      && (id != c.id ==> GetById([c] + issues, id) == GetById(issues, id))
  {
    var c := Created(issues, title, q, start, today);
    FrontLookup(c, issues, id);
  }

  /** A lookup in a list with a record in front: that record for its id, the rest of the list otherwise. */
  lemma FrontLookup(c: Issue, issues: seq<Issue>, id: int)
    ensures GetById([c] + issues, c.id) == Some(c)
    ensures id != c.id ==> GetById([c] + issues, id) == GetById(issues, id)
  {
    var r := [c] + issues;
    assert r[0] == c && r[1..] == issues;
  }

  /** The new record is open since today, not yet done or closed, and has the default or given priority. */
  lemma CreatedFields(issues: seq<Issue>, title: string, q: CreateRequest, start: int, today: Date)
    ensures var c := Created(issues, title, q, start, today);
      && c.status == Open && c.openDate == Some(today) && c.doneDate.None? && c.closeDate.None?
      && (q.priority.None? && q.issueType == Improvement ==> c.priority == Low)
      && (q.priority.None? && q.issueType != Improvement ==> c.priority == Medium)
      && (q.comment == "" <==> c.content == "")
  {
  }

  /** An `edit` that supplies nothing leaves the record as it is. */
  lemma EditNothing(i: Issue, today: Date)
    ensures Edited(i, NoEdit, today) == i
  {
  }

  /** Without a comment, running the same `edit` twice is running it once. */
  lemma EditIdempotent(i: Issue, e: EditRequest, today: Date)
    requires e.comment == ""
    ensures Edited(Edited(i, e, today), e, today) == Edited(i, e, today)
  {
  }

  /**
   * `edit` keeps the id and the open date, extends the body and never
   * shortens it, and stamps the dates from the old status: asking for the
   * status a record already has keeps its dates, except Open, which always
   * clears them.
   */
  lemma EditKeeps(i: Issue, e: EditRequest, today: Date)
    ensures var r := Edited(i, e, today);
      && r.id == i.id && r.openDate == i.openDate
      && i.content <= r.content
      && (e.status == Some(i.status) && i.status != Open ==> r.doneDate == i.doneDate && r.closeDate == i.closeDate)
      && (e.status == Some(Open) ==> r.doneDate.None? && r.closeDate.None?)
  {
  }

  /** `edit` finds its record again by the same id, and no other record moves. */
  lemma EditLookup(issues: seq<Issue>, k: nat, e: EditRequest, today: Date)
    requires k < |issues| && IsFirstWithId(issues, issues[k].id, k)
    ensures var r := issues[k := Edited(issues[k], e, today)];
      && |r| == |issues|
      && GetById(r, issues[k].id) == Some(Edited(issues[k], e, today))
      && forall j :: 0 <= j < |r| && j != k ==> r[j] == issues[j]
  {
    var r := issues[k := Edited(issues[k], e, today)];
    FirstIsFound(r, issues[k].id, k);
  }

  /** The lookup by id finds the first record with the id. */
  lemma FirstIsFound(issues: seq<Issue>, id: int, k: nat)
    requires IsFirstWithId(issues, id, k)
    ensures IndexOfId(issues, id) == Some(k) && GetById(issues, id) == Some(issues[k])
  {
  }

  /** The status after the flags: the last flag set, in the order open, done, close, cancel, or the old status. */
  function FinalStatus(f: StatusRequest, current: Status): Status {
    if f.cancel then Canceled
    else if f.close then Closed
    else if f.done then Test
    else if f.open then Open
    else current
  }

  /** A record's dates agree with its status as the last move left them. */
  predicate Stamped(i: Issue, today: Date) {
    match i.status
    case Open => i.doneDate.None? && i.closeDate.None?
    case Test => i.doneDate == Some(today)
    case Closed => i.closeDate == Some(today)
    case Canceled => i.closeDate == Some(today)
  }

  /** After the moves, the status is the last one asked for. */
  lemma {:induction false} MoveThroughStatus(i: Issue, targets: seq<Status>, today: Date)
    ensures MoveThrough(i, targets, today).status == if targets == [] then i.status else targets[|targets| - 1]
    decreases |targets|
  {
    if targets != [] {
      var i1 := MoveTo(i, targets[0], today);
      MoveThroughStatus(i1, targets[1..], today);
      if |targets| == 1 {
        assert MoveThrough(i1, targets[1..], today) == i1;
      }
    }
  }

  /** The moves touch the status and the two dates only. */
  lemma {:induction false} MoveThroughKeeps(i: Issue, targets: seq<Status>, today: Date)
    ensures var r := MoveThrough(i, targets, today);
      r.(status := i.status, doneDate := i.doneDate, closeDate := i.closeDate) == i
    decreases |targets|
  {
    if targets != [] {
      MoveThroughKeeps(MoveTo(i, targets[0], today), targets[1..], today);
    }
  }

  /** Once the dates agree with the status, further moves keep them in agreement. */
  lemma {:induction false} StampedStays(i: Issue, targets: seq<Status>, today: Date)
    requires Stamped(i, today)
    ensures Stamped(MoveThrough(i, targets, today), today)
    decreases |targets|
  {
    if targets != [] {
      StampedStays(MoveTo(i, targets[0], today), targets[1..], today);
    }
  }

  /** When the moves change the status, the dates agree with the new status. */
  lemma {:induction false} MoveThroughStamps(i: Issue, targets: seq<Status>, today: Date)
    requires MoveThrough(i, targets, today).status != i.status
    ensures Stamped(MoveThrough(i, targets, today), today)
    decreases |targets|
  {
    var i1 := MoveTo(i, targets[0], today);
    if i.status != targets[0] {
      StampedStays(i1, targets[1..], today);
    } else {
      MoveThroughStamps(i1, targets[1..], today);
    }
  }

  /**
   * `status` ends on the last flag set, in the order open, done, close,
   * cancel; it changes nothing but the status, the two dates and the body;
   * and when the status changed, Open has cleared both dates, Test has stamped
   * the done date and Closed or Canceled the close date.
   */
  lemma StatusOutcome(i: Issue, f: StatusRequest, today: Date)
    ensures var r := StatusChanged(i, f, today);
      && r.status == FinalStatus(f, i.status)
      && r.(status := i.status, doneDate := i.doneDate, closeDate := i.closeDate, content := i.content) == i
      && i.content <= r.content
      && (r.status != i.status ==> Stamped(r, today))
  {
    var ts := Targets(f);
    var moved := MoveThrough(i, ts, today);
    MoveThroughStatus(i, ts, today);
    MoveThroughKeeps(i, ts, today);
    if moved.status != i.status {
      MoveThroughStamps(i, ts, today);
    }
  }

  /** `status` without flags and without a comment leaves the record as it is. */
  lemma StatusNothing(i: Issue, today: Date)
    ensures StatusChanged(i, StatusRequest(false, false, false, false, ""), today) == i
  {
    assert Targets(StatusRequest(false, false, false, false, "")) == [];
  }

  /** Moving twice to the same status is moving once. */
  lemma MoveToIdempotent(i: Issue, t: Status, today: Date)
    ensures MoveTo(MoveTo(i, t, today), t, today) == MoveTo(i, t, today)
  {
  }

  /**
   * One `status` flag does what `edit` with that status does, except that
   * `edit --status Open` also clears the dates of a record that is already open.
   */
  lemma OneFlagIsEdit(i: Issue, t: Status, today: Date)
    ensures t != Open || i.status != Open ==> MoveTo(i, t, today) == Edited(i, NoEdit.(status := Some(t)), today)
    ensures t == Open && i.status == Open && (i.doneDate.Some? || i.closeDate.Some?) ==>
      MoveTo(i, t, today) != Edited(i, NoEdit.(status := Some(t)), today)
  {
  }

  /** A `status` command with one flag and no comment is the `edit` of that status, with the same exception for Open. */
  lemma OneFlagCommand(i: Issue, t: Status, today: Date)
    requires t != Open || i.status != Open
    ensures StatusChanged(i, StatusRequest(t == Open, t == Test, t == Closed, t == Canceled, ""), today)
      == Edited(i, NoEdit.(status := Some(t)), today)
  {
    var f := StatusRequest(t == Open, t == Test, t == Closed, t == Canceled, "");
    assert Targets(f) == [t];
    assert MoveThrough(i, [t], today) == MoveThrough(MoveTo(i, t, today), [], today);
    OneFlagIsEdit(i, t, today);
  }

  // ---------------------------------------------------------------------
  // archive
  // ---------------------------------------------------------------------

  /**
   * `archive`, the lists only: nothing to do when no record can be
   * archived; otherwise the archive document gets the records to archive
   * followed by those it already held, and the main document the others.
   */
  function ArchivePlan(issues: seq<Issue>, archived: seq<Issue>): (r: Option<(seq<Issue>, seq<Issue>)>)
    ensures r.None? <==> forall k :: 0 <= k < |issues| ==> !Archivable(issues[k], TopId(issues))
  {
    var (toArchive, toKeep) := SplitToArchive(issues);
    if toArchive == [] then
      NothingToArchive(issues);
      None
    else
      SomethingToArchive(issues);
      Some((toArchive + archived, toKeep))
  }

  lemma NothingToArchive(issues: seq<Issue>)
    requires SplitToArchive(issues).0 == []
    ensures forall k :: 0 <= k < |issues| ==> !Archivable(issues[k], TopId(issues))
  {
    forall k | 0 <= k < |issues| ensures !Archivable(issues[k], TopId(issues)) {
      assert multiset(issues)[issues[k]] > 0;
    }
  }

  lemma SomethingToArchive(issues: seq<Issue>)
    requires SplitToArchive(issues).0 != []
    ensures exists k :: 0 <= k < |issues| && Archivable(issues[k], TopId(issues))
  {
    var a := SplitToArchive(issues).0;
    assert multiset(a)[a[0]] > 0;
    assert a[0] in issues;
  }

  /** The plan, when there is one, is the split with the old archive after the records to archive. */
  lemma ArchivePlanIs(issues: seq<Issue>, archived: seq<Issue>)
    requires ArchivePlan(issues, archived).Some?
    ensures ArchivePlan(issues, archived).value == (SplitToArchive(issues).0 + archived, SplitToArchive(issues).1)
  {
  }

  /**
   * Archiving loses and duplicates nothing: the two documents together hold
   * the main document's records and the archive's old ones, and the archive
   * keeps its old records, in order, at its end.
   */
  lemma ArchiveConserves(issues: seq<Issue>, archived: seq<Issue>)
    requires ArchivePlan(issues, archived).Some?
    ensures var plan := ArchivePlan(issues, archived).value;
      && multiset(plan.0) + multiset(plan.1) == multiset(issues) + multiset(archived)
      && |plan.0| > |archived| && plan.0[|plan.0| - |archived|..] == archived
  {
    ArchivePlanIs(issues, archived);
    ArchiveTail(SplitToArchive(issues).0, archived);
  }

  /** The archive receives only closed or canceled records. */
  lemma ArchiveMovesFinished(issues: seq<Issue>, archived: seq<Issue>)
    requires ArchivePlan(issues, archived).Some?
    ensures var plan := ArchivePlan(issues, archived).value;
      forall k :: 0 <= k < |plan.0| - |archived| ==> plan.0[k].status in {Closed, Canceled}
  {
    ArchivePlanIs(issues, archived);
    MovedFinished(issues);
    ArchiveTail(SplitToArchive(issues).0, archived);
  }

  /** The main document keeps the record with the highest id, so its next id does not change. */
  lemma ArchiveKeepsNextId(issues: seq<Issue>, archived: seq<Issue>, start: int)
    requires ArchivePlan(issues, archived).Some?
    ensures GetNewId(ArchivePlan(issues, archived).value.1, start) == GetNewId(issues, start)
  {
    ArchivePlanIs(issues, archived);
    SplitKeepsNewId(issues, start);
  }

  lemma MovedFinished(issues: seq<Issue>)
    ensures var moved := SplitToArchive(issues).0;
      forall k :: 0 <= k < |moved| ==> moved[k].status in {Closed, Canceled}
  {
    var moved := SplitToArchive(issues).0;
    forall k | 0 <= k < |moved| ensures moved[k].status in {Closed, Canceled} {
      assert moved[k] in moved;
    }
  }

  lemma ArchiveTail(moved: seq<Issue>, archived: seq<Issue>)
    ensures var a := moved + archived;
      a[|a| - |archived|..] == archived && forall k :: 0 <= k < |moved| ==> a[k] == moved[k]
  {
  }

  // ---------------------------------------------------------------------
  // The commands keep the document readable
  // ---------------------------------------------------------------------

  /** A comment the document gives back: empty, or one stripped line. */
  predicate CommentReadable(comment: string) {
    comment == "" || (IsTrimmed(comment) && SingleLine(comment))
  }

  lemma LabelOneLine(op: Operation)
    ensures SingleLine(op.Label()) && op.Label() != ""
  {
  }

  /** The line of a comment, without the blank line after it. */
  function CommentLine(today: Date, op: Operation, comment: string): string {
    FormatComment(today, op, comment, "\n")
  }

  /** The comment line is a content line: it starts with the day's first digit and ends with the comment. */
  lemma CommentIsContent(today: Date, op: Operation, comment: string)
    requires comment != "" && IsTrimmed(comment) && SingleLine(comment)
    ensures ContentLine(CommentLine(today, op, comment))
  {
    var d := FormatDate(today);
    var body := d + " - " + op.Label() + " - " + comment;
    var line := CommentLine(today, op, comment);
    LabelOneLine(op);
    assert line == body + "\n";
    assert line[..|line| - 1] == body;
    assert body[0] == d[0];
    assert body[|body| - 1] == comment[|comment| - 1];
  }

  /** A content line and a blank line are read as those two lines. */
  lemma LineThenBlank(line: string)
    requires ContentLine(line)
    ensures FileLines(line + "\n") == [line, "\n"]
  {
    var lines := [line, "\n"];
    assert lines[1..] == ["\n"] && ["\n"][1..] == [];
    assert Concat(lines) == line + ("\n" + "");
    assert "\n" + "" == "\n";
    assert Concat(lines) == line + "\n";
    assert IsLine(line) && EndsLine(line);
    FileLinesOfLines(lines);
  }

  /** A comment is read as its line and then a blank line. */
  lemma CommentLines(today: Date, op: Operation, comment: string)
    requires comment != "" && IsTrimmed(comment) && SingleLine(comment)
    ensures FileLines(CommentText(today, op, comment)) == [CommentLine(today, op, comment), "\n"]
  {
    CommentIsContent(today, op, comment);
    assert CommentText(today, op, comment) == CommentLine(today, op, comment) + "\n";
    LineThenBlank(CommentLine(today, op, comment));
  }

  /** A readable comment is a readable body, and the reader keeps its line. */
  lemma CommentBody(today: Date, op: Operation, comment: string)
    requires CommentReadable(comment)
    ensures BodyReadable(CommentText(today, op, comment))
    ensures Concat(KeptLines(FileLines(CommentText(today, op, comment))))
      == if comment == "" then "" else CommentLine(today, op, comment)
  {
    if comment != "" {
      CommentLines(today, op, comment);
      CommentIsContent(today, op, comment);
      var line := CommentLine(today, op, comment);
      assert KeptLines([line, "\n"]) == [line] + KeptLines(["\n"]);
      assert KeptLines(["\n"]) == [] + KeptLines([]);
      assert Concat([line]) == line + "";
    } else {
      assert FileLines("") == [];
    }
  }

  /** The reader keeps the lines of two pieces one after the other. */
  lemma {:induction false} KeptAppend(a: seq<string>, b: seq<string>)
    ensures KeptLines(a + b) == KeptLines(a) + KeptLines(b)
    decreases |a|
  {
    if a != [] {
      KeptAppend(a[1..], b);
      assert (a + b)[0] == a[0] && (a + b)[1..] == a[1..] + b;
    } else {
      assert a + b == b;
    }
  }

  /** The lines of two readable bodies, one after the other, are the lines of each in turn. */
  lemma FileLinesAppend(c: string, x: string)
    requires BodyReadable(c) && BodyReadable(x)
    ensures FileLines(c + x) == FileLines(c) + FileLines(x)
  {
    var a, b := FileLines(c), FileLines(x);
    ContentFull(a);
    ContentFull(b);
    AllFullAppend(a, b);
    FullAreLines(a + b);
    ConcatAppend(a, b);
    FileLinesOfLines(a + b);
  }

  lemma BodyLinesAppend(a: seq<string>, b: seq<string>)
    requires forall k :: 0 <= k < |a| ==> BodyLine(a[k])
    requires forall k :: 0 <= k < |b| ==> BodyLine(b[k])
    ensures forall k :: 0 <= k < |a + b| ==> BodyLine((a + b)[k])
  {
    forall k | 0 <= k < |a + b| ensures BodyLine((a + b)[k]) {
      if k >= |a| {
        assert (a + b)[k] == b[k - |a|];
      }
    }
  }

  /** Two readable bodies, one after the other, make a readable body read as the two in turn. */
  lemma AppendBody(c: string, x: string)
    requires BodyReadable(c) && BodyReadable(x)
    ensures BodyReadable(c + x)
    ensures Concat(KeptLines(FileLines(c + x))) == Concat(KeptLines(FileLines(c))) + Concat(KeptLines(FileLines(x)))
  {
    var a, b := FileLines(c), FileLines(x);
    FileLinesAppend(c, x);
    BodyLinesAppend(a, b);
    KeptAppend(a, b);
    ConcatAppend(KeptLines(a), KeptLines(b));
  }

  /** A body with a comment appended: still readable, and read back with the comment's line in place. */
  lemma CommentAppended(c: string, today: Date, op: Operation, comment: string)
    requires BodyReadable(c) && CommentReadable(comment)
    ensures BodyReadable(c + CommentText(today, op, comment))
    ensures Concat(KeptLines(FileLines(c + CommentText(today, op, comment))))
      == Concat(KeptLines(FileLines(c))) + if comment == "" then "" else CommentLine(today, op, comment)
  {
    CommentBody(today, op, comment);
    AppendBody(c, CommentText(today, op, comment));
  }

  /** The options of `create` give a record the document reads back. */
  predicate CreateReadable(title: string, q: CreateRequest, start: int) {
    && start >= 0 && TitleReadable(title) && SubtitleReadable(q.subtitle)
    && EnvironmentReadable(q.environment) && MilestoneReadable(q.milestone)
    && CommentReadable(q.comment)
  }

  /** The options of `edit` keep a record readable. */
  predicate EditReadable(e: EditRequest) {
    && (e.title.Some? ==> TitleReadable(e.title.value))
    && (e.subtitle.Some? ==> SubtitleReadable(e.subtitle.value))
    && (e.environment.Some? ==> EnvironmentReadable(e.environment.value))
    && (e.milestone.Some? ==> MilestoneReadable(e.milestone.value))
    && CommentReadable(e.comment)
  }

  /** The created record is read back, its comment without the blank line after it. */
  lemma CreatedReadable(issues: seq<Issue>, title: string, q: CreateRequest, start: int, today: Date)
    requires CreateReadable(title, q, start)
    ensures var c := Created(issues, title, q, start, today);
      Readable(c) && Saved(c) == c.(content := if q.comment == "" then "" else CommentLine(today, CreateOp, q.comment))
  {
    CommentBody(today, CreateOp, q.comment);
  }

  /** An edited record stays readable, and is read back with the comment's line added to its body. */
  lemma EditedReadable(i: Issue, e: EditRequest, today: Date)
    requires Readable(i) && EditReadable(e)
    ensures Readable(Edited(i, e, today))
    ensures Saved(Edited(i, e, today)).content
      == Saved(i).content + if e.comment == "" then "" else CommentLine(today, EditOp, e.comment)
  {
    CommentAppended(i.content, today, EditOp, e.comment);
  }

  /** A record after `status` stays readable, and is read back with the comment's line added to its body. */
  lemma StatusChangedReadable(i: Issue, f: StatusRequest, today: Date)
    requires Readable(i) && CommentReadable(f.comment)
    ensures Readable(StatusChanged(i, f, today))
    ensures Saved(StatusChanged(i, f, today)).content
      == Saved(i).content + if f.comment == "" then "" else CommentLine(today, StatusOp, f.comment)
  {
    var moved := MoveThrough(i, Targets(f), today);
    MoveThroughKeeps(i, Targets(f), today);
    assert moved.content == i.content && moved.id == i.id && moved.title == i.title;
    assert moved.subtitle == i.subtitle && moved.environment == i.environment && moved.milestone == i.milestone;
    CommentAppended(i.content, today, StatusOp, f.comment);
  }

  predicate AllReadable(issues: seq<Issue>) {
    forall k :: 0 <= k < |issues| ==> Readable(issues[k])
  }

  lemma ReplaceReadable(issues: seq<Issue>, k: nat, x: Issue)
    requires AllReadable(issues) && k < |issues| && Readable(x)
    ensures AllReadable(issues[k := x])
  {
  }

  lemma FrontReadable(issues: seq<Issue>, x: Issue)
    requires AllReadable(issues) && Readable(x)
    ensures AllReadable([x] + issues)
  {
    forall k | 0 <= k < |[x] + issues| ensures Readable(([x] + issues)[k]) {
      if k > 0 {
        assert ([x] + issues)[k] == issues[k - 1];
      }
    }
  }

  /** After `create`, the document written back reads as the new list. */
  lemma CreateSaves(issues: seq<Issue>, title: string, q: CreateRequest, start: int, today: Date)
    requires AllReadable(issues) && CreateReadable(title, q, start)
    ensures var r := [Created(issues, title, q, start, today)] + issues;
      ParseText(Dump(r)) == Ok(SavedAll(r))
  {
    var c := Created(issues, title, q, start, today);
    CreatedReadable(issues, title, q, start, today);
    FrontReadable(issues, c);
    DumpParses([c] + issues);
  }

  /** After `edit`, the document written back reads as the new list. */
  lemma EditSaves(issues: seq<Issue>, k: nat, e: EditRequest, today: Date)
    requires AllReadable(issues) && k < |issues| && EditReadable(e)
    ensures var r := issues[k := Edited(issues[k], e, today)];
      ParseText(Dump(r)) == Ok(SavedAll(r))
  {
    EditedReadable(issues[k], e, today);
    ReplaceReadable(issues, k, Edited(issues[k], e, today));
    DumpParses(issues[k := Edited(issues[k], e, today)]);
  }

  /** After `status`, the document written back reads as the new list. */
  lemma StatusSaves(issues: seq<Issue>, k: nat, f: StatusRequest, today: Date)
    requires AllReadable(issues) && k < |issues| && CommentReadable(f.comment)
    ensures var r := issues[k := StatusChanged(issues[k], f, today)];
      ParseText(Dump(r)) == Ok(SavedAll(r))
  {
    StatusChangedReadable(issues[k], f, today);
    ReplaceReadable(issues, k, StatusChanged(issues[k], f, today));
    DumpParses(issues[k := StatusChanged(issues[k], f, today)]);
  }

  /** Records taken from a readable list are readable. */
  lemma TakenReadable(xs: seq<Issue>, ys: seq<Issue>)
    requires AllReadable(ys) && multiset(xs) <= multiset(ys)
    ensures AllReadable(xs)
  {
    forall k | 0 <= k < |xs| ensures Readable(xs[k]) {
      assert multiset(xs)[xs[k]] > 0;
      assert xs[k] in ys;
    }
  }

  lemma AppendReadable(xs: seq<Issue>, ys: seq<Issue>)
    requires AllReadable(xs) && AllReadable(ys)
    ensures AllReadable(xs + ys)
  {
    forall k | 0 <= k < |xs + ys| ensures Readable((xs + ys)[k]) {
      if k >= |xs| {
        assert (xs + ys)[k] == ys[k - |xs|];
      }
    }
  }

  /** The two lists of the archive split of readable lists are readable. */
  lemma PartsReadable(issues: seq<Issue>, archived: seq<Issue>)
    requires AllReadable(issues) && AllReadable(archived)
    ensures AllReadable(SplitToArchive(issues).0 + archived) && AllReadable(SplitToArchive(issues).1)
  {
    var (moved, kept) := SplitToArchive(issues);
    TakenReadable(moved, issues);
    TakenReadable(kept, issues);
    AppendReadable(moved, archived);
  }

  /** After `archive`, both documents written read back as their lists. */
  lemma ArchiveSaves(issues: seq<Issue>, archived: seq<Issue>)
    requires AllReadable(issues) && AllReadable(archived)
    requires ArchivePlan(issues, archived).Some?
    ensures var (toArchive, toKeep) := ArchivePlan(issues, archived).value;
      ParseText(Dump(toArchive)) == Ok(SavedAll(toArchive)) && ParseText(Dump(toKeep)) == Ok(SavedAll(toKeep))
  {
    PartsReadable(issues, archived);
    var (toArchive, toKeep) := ArchivePlan(issues, archived).value;
    DumpParses(toArchive);
    DumpParses(toKeep);
  }
}
