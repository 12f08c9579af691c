/** The data rules of src/pages/AdminDashboard.jsx: the group dialog
    (opening it for a new or an existing group, its field and schedule-row
    handlers, and the payload `submitGroup` sends), the attendance status
    colours and the two statistics cards. */
module AdminDashboard {
  import opened Common

  /** A schedule row as the dialog edits it. */
  datatype ScheduleRow = ScheduleRow(day: string, startTime: string, endTime: string)

  const EmptyRow := ScheduleRow("", "", "")

  /** A schedule slot as the backend returns it; `id` stands for whatever
      else the record carries. */
  datatype Slot = Slot(id: Option<string>, day: string, startTime: string, endTime: string)

  /** A group as the backend returns it. */
  datatype Group = Group(id: string, code: string, academicLevel: string, maxStudents: int, schedule: seq<Slot>)

  /** `groupDialog.data`: every field as the form holds it. */
  datatype GroupDraft = GroupDraft(id: Option<string>, code: string, academicLevel: string, maxStudents: string,
                                   schedule: seq<ScheduleRow>)

  /** The body of `createGroup` / `updateGroup`. */
  datatype GroupPayload = GroupPayload(code: string, academicLevel: string, maxStudents: Num, schedule: seq<ScheduleRow>)

  datatype Mode = CreateMode | EditMode

  datatype GroupRequest = CreateGroup(payload: GroupPayload) | UpdateGroup(id: Option<string>, payload: GroupPayload)

  datatype RowField = Day | StartTime | EndTime

  datatype DraftField = Code | AcademicLevel | MaxStudents

  // ---------------------------------------------------------------------
  // Schedule rows (lines 296-320)
  // ---------------------------------------------------------------------

  function RowFieldOf(row: ScheduleRow, field: RowField): string {
    match field
    case Day => row.day
    case StartTime => row.startTime
    case EndTime => row.endTime
  }

  /** `{ ...row, [field]: value }` */
  function SetRowField(row: ScheduleRow, field: RowField, value: string): (r: ScheduleRow)
    ensures RowFieldOf(r, field) == value
    ensures forall g :: g != field ==> RowFieldOf(r, g) == RowFieldOf(row, g)
  {
    match field
    case Day => row.(day := value)
    case StartTime => row.(startTime := value)
    case EndTime => row.(endTime := value)
  }

  /** `handleScheduleChange` on the rows (called for a rendered row): only
      the named field of row `idx` changes. */
  function ScheduleChanged(rows: seq<ScheduleRow>, idx: nat, field: RowField, value: string): (r: seq<ScheduleRow>)
    requires idx < |rows|
    ensures |r| == |rows|
    ensures RowFieldOf(r[idx], field) == value
    ensures forall g :: g != field ==> RowFieldOf(r[idx], g) == RowFieldOf(rows[idx], g)
    ensures forall i :: 0 <= i < |rows| && i != idx ==> r[i] == rows[i]
  {
    rows[idx := SetRowField(rows[idx], field, value)]
  }

  /** `addScheduleRow`: one empty row appended, the others unchanged. */
  function RowAdded(rows: seq<ScheduleRow>): (r: seq<ScheduleRow>)
    ensures |r| == |rows| + 1 && r[..|rows|] == rows && r[|rows|] == EmptyRow
  {
    rows + [EmptyRow]
  }

  /** `schedule.filter((_, i) => i !== idx)` */
  function RowRemoved(rows: seq<ScheduleRow>, idx: int): (r: seq<ScheduleRow>)
    ensures 0 <= idx < |rows| ==> r == rows[..idx] + rows[idx + 1..]
    ensures !(0 <= idx < |rows|) ==> r == rows
  {
    if rows == [] then []
    else
      var n := |rows| - 1;
      var kept := RowRemoved(rows[..n], idx);
      assert rows[..n] + [rows[n]] == rows;
      if n == idx then kept
      else
        assert 0 <= idx < n ==> rows[..n][..idx] == rows[..idx] && rows[..n][idx + 1..] + [rows[n]] == rows[idx + 1..];
        kept + [rows[n]]
  }

  /** Removing the row just added gives the rows back. */
  lemma RemoveUndoesAdd(rows: seq<ScheduleRow>)
    ensures RowRemoved(RowAdded(rows), |rows|) == rows
  {
    assert RowAdded(rows)[..|rows|] == rows;
  }

  // ---------------------------------------------------------------------
  // Opening and submitting the group dialog (lines 255-283, 293-294, 322-349)
  // ---------------------------------------------------------------------

  function Row(s: Slot): ScheduleRow {
    ScheduleRow(s.day, s.startTime, s.endTime)
  }

  /** `schedule.map((s) => ({ day, startTime, endTime }))` */
  function Rows(slots: seq<Slot>): (r: seq<ScheduleRow>)
    ensures |r| == |slots|
    ensures forall i :: 0 <= i < |slots| ==>
              r[i].day == slots[i].day && r[i].startTime == slots[i].startTime && r[i].endTime == slots[i].endTime
  {
    seq(|slots|, i requires 0 <= i < |slots| => Row(slots[i]))
  }

  const NewGroupDraft := GroupDraft(None, "", "", "", [EmptyRow])

  /** `openEditGroup`: the group's fields, the capacity as its decimal
      text, the schedule reduced to day and times. */
  function EditDraft(g: Group): (d: GroupDraft)
    ensures d.id == Some(g.id) && d.code == g.code && d.academicLevel == g.academicLevel
    ensures ToNumber(d.maxStudents) == Finite(g.maxStudents)
    ensures d.schedule == Rows(g.schedule)
  {
    NumberOfString(g.maxStudents);
    GroupDraft(Some(g.id), g.code, g.academicLevel, IntToString(g.maxStudents), Rows(g.schedule))
  }

  /** The payload `submitGroup` builds: the capacity through `Number`, the
      rows reduced to day and times. */
  function Payload(d: GroupDraft): (p: GroupPayload)
    ensures p.code == d.code && p.academicLevel == d.academicLevel
    ensures p.maxStudents == ToNumber(d.maxStudents)
    ensures p.schedule == d.schedule
  {
    GroupPayload(d.code, d.academicLevel, ToNumber(d.maxStudents), d.schedule)
  }

  /** Opening an existing group and saving it unchanged sends back the
      group's own code, level, capacity and schedule times. */
  lemma EditThenSubmitRoundTrip(g: Group)
    ensures Payload(EditDraft(g)) == GroupPayload(g.code, g.academicLevel, Finite(g.maxStudents), Rows(g.schedule))
  {
  }

  /** A new group's capacity field is empty, which `Number` reads as 0. */
  lemma NewGroupCapacityIsZero()
    ensures Payload(NewGroupDraft).maxStudents == Finite(0)
    ensures Payload(NewGroupDraft).schedule == [EmptyRow]
  {
    assert TrimStart("") == "";
  }

  function DraftFieldOf(d: GroupDraft, field: DraftField): string {
    match field
    case Code => d.code
    case AcademicLevel => d.academicLevel
    case MaxStudents => d.maxStudents
  }

  // ---------------------------------------------------------------------
  // Status colours and statistics (lines 365-377)
  // ---------------------------------------------------------------------

  /** `getStatusColor`: the colour table is data (present is green
      "success", absent red "error", late amber "warning"); what the
      contract states is which statuses get a colour. */
  function StatusColor(status: string): (c: string)
    ensures c != "default" <==> status in {"present", "absent", "late"}
    ensures status == "present" ==> c == "success"
    ensures status == "absent" ==> c == "error"
    ensures status == "late" ==> c == "warning"
  {
    match status
    case "present" => "success"
    case "absent" => "error"
    case "late" => "warning"
    case _ => "default"
  }

  /** The three known statuses get three different colours. */
  lemma StatusColorsDistinct(a: string, b: string)
    requires a in {"present", "absent", "late"} && b in {"present", "absent", "late"}
    ensures StatusColor(a) == StatusColor(b) <==> a == b
  {
  }

  datatype AttendanceRecord = AttendanceRecord(studentName: string, status: string)

  /** `groups.reduce((sum, group) => sum + group.maxStudents, 0)` */
  function TotalStudents(groups: seq<Group>): int {
    if groups == [] then 0 else TotalStudents(groups[..|groups| - 1]) + groups[|groups| - 1].maxStudents
  }

  /** The capacity total of two lists of groups is the sum of their totals. */
  lemma {:induction false} TotalStudentsAppend(a: seq<Group>, b: seq<Group>)
    ensures TotalStudents(a + b) == TotalStudents(a) + TotalStudents(b)
  {
    if b != [] {
      var n := |b| - 1;
      assert (a + b)[..|a + b| - 1] == a + b[..n];
      TotalStudentsAppend(a, b[..n]);
    } else {
      assert a + b == a;
    }
  }

  /** A group list with non-negative capacities has a non-negative total at
      least as large as any one capacity. */
  lemma {:induction false} TotalStudentsBounds(groups: seq<Group>, i: nat)
    requires i < |groups|
    requires forall g :: g in groups ==> g.maxStudents >= 0
    ensures TotalStudents(groups) >= groups[i].maxStudents >= 0
  {
    var n := |groups| - 1;
    if i < n {
      assert groups[i] == groups[..n][i];
      TotalStudentsBounds(groups[..n], i);
    } else if n > 0 {
      NonNegativeTotal(groups[..n]);
    }
  }

  lemma {:induction false} NonNegativeTotal(groups: seq<Group>)
    requires forall g :: g in groups ==> g.maxStudents >= 0
    ensures TotalStudents(groups) >= 0
  {
    if groups != [] {
      NonNegativeTotal(groups[..|groups| - 1]);
    }
  }

  /** `attendance.filter(a => a.status === 'present').length` */
  function TodayAttendance(records: seq<AttendanceRecord>): nat {
    if records == [] then 0
    else TodayAttendance(records[..|records| - 1]) + (if records[|records| - 1].status == "present" then 1 else 0)
  }

  /** Number of records whose chip shows `colour`. */
  function CountColour(records: seq<AttendanceRecord>, colour: string): nat {
    if records == [] then 0
    else CountColour(records[1..], colour) + (if StatusColor(records[0].status) == colour then 1 else 0)
  }

  /** The attendance card counts exactly the records shown with the
      'success' chip, and never more than there are records. */
  lemma {:induction false} TodayAttendanceIsSuccessChips(records: seq<AttendanceRecord>)
    ensures TodayAttendance(records) == CountColour(records, "success")
    ensures TodayAttendance(records) <= |records|
  {
    if records != [] {
      var n := |records| - 1;
      TodayAttendanceIsSuccessChips(records[..n]);
      CountColourLast(records);
    }
  }

  lemma {:induction false} CountColourLast(records: seq<AttendanceRecord>)
    requires records != []
    ensures CountColour(records, "success") ==
            CountColour(records[..|records| - 1], "success")
            + (if StatusColor(records[|records| - 1].status) == "success" then 1 else 0)
  {
    if |records| > 1 {
      var n := |records| - 1;
      assert records[1..][..|records[1..]| - 1] == records[..n][1..];
      CountColourLast(records[1..]);
    }
  }

  // ---------------------------------------------------------------------
  // The dialog state
  // ---------------------------------------------------------------------

  datatype SubmitReply = Saved | SaveFailed(message: Option<string>)

  /** `groupDialog`: mode, visibility, the draft and the error line. */
  class GroupDialog {
    var mode: Mode
    var open: bool
    var draft: GroupDraft
    var error: string

    constructor ()
      ensures mode == CreateMode && !open && draft == NewGroupDraft && error == ""
    {
      mode, open, draft, error := CreateMode, false, NewGroupDraft, "";
    }

    /** `openCreateGroup` */
    method OpenCreate()
      modifies this
      ensures mode == CreateMode && open && draft == NewGroupDraft && error == ""
    {
      mode, open, draft, error := CreateMode, true, NewGroupDraft, "";
    }

    /** `openEditGroup` */
    method OpenEdit(g: Group)
      modifies this
      ensures mode == EditMode && open && draft == EditDraft(g) && error == ""
    {
      mode, open, error := EditMode, true, "";
      var text := IntToString(g.maxStudents);
      draft := GroupDraft(Some(g.id), g.code, g.academicLevel, text, Rows(g.schedule));
    }

    /** `closeGroupDialog` */
    method Close()
      modifies this
      ensures !open && mode == old(mode) && draft == old(draft) && error == old(error)
    {
      open := false;
    }

    /** `handleGroupField` */
    method SetField(field: DraftField, value: string)
      modifies this
      ensures DraftFieldOf(draft, field) == value
      ensures forall g :: g != field ==> DraftFieldOf(draft, g) == DraftFieldOf(old(draft), g)
      ensures draft.id == old(draft.id) && draft.schedule == old(draft.schedule)
      ensures mode == old(mode) && open == old(open) && error == old(error)
    {
      match field {
        case Code => draft := draft.(code := value);
        case AcademicLevel => draft := draft.(academicLevel := value);
        case MaxStudents => draft := draft.(maxStudents := value);
      }
    }

    /** `handleScheduleChange`: a copy of the rows, one slot reassigned. */
    method ChangeSchedule(idx: nat, field: RowField, value: string)
      requires idx < |draft.schedule|
      modifies this
      ensures draft == old(draft).(schedule := ScheduleChanged(old(draft.schedule), idx, field, value))
      ensures mode == old(mode) && open == old(open) && error == old(error)
    {
      var rows := draft.schedule;
      var sched := new ScheduleRow[|rows|](i requires 0 <= i < |rows| => rows[i]);
      sched[idx] := SetRowField(sched[idx], field, value);
      assert sched[..] == rows[idx := SetRowField(rows[idx], field, value)];
      draft := draft.(schedule := sched[..]);
    }

    /** `addScheduleRow` */
    method AddRow()
      modifies this
      ensures draft == old(draft).(schedule := RowAdded(old(draft.schedule)))
      ensures mode == old(mode) && open == old(open) && error == old(error)
    {
      draft := draft.(schedule := draft.schedule + [EmptyRow]);
    }

    /** `removeScheduleRow` */
    method RemoveRow(idx: int)
      modifies this
      ensures draft == old(draft).(schedule := RowRemoved(old(draft.schedule), idx))
      ensures mode == old(mode) && open == old(open) && error == old(error)
    {
      draft := draft.(schedule := RowRemoved(draft.schedule, idx));
    }

    /** `submitGroup`: the request it sends, then on success the dialog
        closes and the groups are fetched again; on failure the dialog
        stays open with the server's message or 'Operation failed.'. */
    method Submit(reply: SubmitReply) returns (request: GroupRequest, refetch: bool)
      modifies this
      ensures request == (if old(mode) == CreateMode then CreateGroup(Payload(old(draft)))
                          else UpdateGroup(old(draft.id), Payload(old(draft))))
      ensures reply.Saved? ==> !open && error == "" && refetch
      ensures reply.SaveFailed? ==> open == old(open) && error == OrElse(reply.message, "Operation failed.") && !refetch
      ensures mode == old(mode) && draft == old(draft)
    {
      request := if mode == CreateMode then CreateGroup(Payload(draft)) else UpdateGroup(draft.id, Payload(draft));
      if reply.Saved? {
        error, open, refetch := "", false, true;
      } else {
        error, refetch := OrElse(reply.message, "Operation failed."), false;
      }
    }
  }
}
