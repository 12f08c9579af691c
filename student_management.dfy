/** Student roster rules of src/pages/StudentManagement.jsx: the add form's
    field handler, the list tab's search/status filter, pagination and
    counts, and the suspension tab's roster merge, suspension map,
    suspension validation, suspend and lift. */
module StudentManagement {
  import opened Common

  datatype Student = Student(
    id: string,
    fullName: string,
    groupCode: Option<string>,
    academicLevel: Option<string>,
    cardCode: Option<string>,
    isActive: bool)

  function Min(a: int, b: int): int {
    if a <= b then a else b
  }

  // ---------------------------------------------------------------------
  // AddTab: `handleChange` (lines 158-170)
  // ---------------------------------------------------------------------

  datatype FormField = FullName | PhoneNumber | ParentWhatsAppNumber | AcademicLevel | GroupCode | AttendanceCardCode

  datatype StudentForm = StudentForm(
    fullName: string,
    phoneNumber: string,
    parentWhatsAppNumber: string,
    academicLevel: string,
    groupCode: string,
    attendanceCardCode: string)

  function FieldOf(f: StudentForm, field: FormField): string {
    match field
    case FullName => f.fullName
    case PhoneNumber => f.phoneNumber
    case ParentWhatsAppNumber => f.parentWhatsAppNumber
    case AcademicLevel => f.academicLevel
    case GroupCode => f.groupCode
    case AttendanceCardCode => f.attendanceCardCode
  }

  /** `{ ...f, [name]: value }` */
  function WithField(f: StudentForm, field: FormField, value: string): (r: StudentForm)
    ensures FieldOf(r, field) == value
    ensures forall g :: g != field ==> FieldOf(r, g) == FieldOf(f, g)
  {
    match field
    case FullName => f.(fullName := value)
    case PhoneNumber => f.(phoneNumber := value)
    case ParentWhatsAppNumber => f.(parentWhatsAppNumber := value)
    case AcademicLevel => f.(academicLevel := value)
    case GroupCode => f.(groupCode := value)
    case AttendanceCardCode => f.(attendanceCardCode := value)
  }

  /** An entry of `groupsList`. */
  datatype GroupInfo = GroupInfo(code: string, academicLevel: Option<string>)

  /** `groupsList.find((g) => g.code === value)`: the first group with the
      code, if any. */
  function FindGroup(groups: seq<GroupInfo>, code: string): (r: Option<GroupInfo>)
    ensures r.None? <==> forall g :: g in groups ==> g.code != code
    ensures r.Some? ==> exists i :: 0 <= i < |groups| && groups[i] == r.value && r.value.code == code
                                    && forall j :: 0 <= j < i ==> groups[j].code != code
  {
    if groups == [] then None
    else if groups[0].code == code then Some(groups[0])
    else
      var r := FindGroup(groups[1..], code);
      assert forall g :: g in groups ==> g == groups[0] || g in groups[1..];
      if r.Some? then
        var i :| 0 <= i < |groups[1..]| && groups[1..][i] == r.value && r.value.code == code
                 && forall j :: 0 <= j < i ==> groups[1..][j].code != code;
        assert groups[i + 1] == r.value;
        r
      else r
  }

  /** Choosing a group also sets the academic level to that group's level
      ('' when the group is unknown or has none); any other field changes
      only itself. */
  function HandleFormChange(form: StudentForm, groups: seq<GroupInfo>, field: FormField, value: string): (r: StudentForm)
    ensures field == GroupCode ==>
              && r.groupCode == value
              && r.academicLevel == (var g := FindGroup(groups, value); if g.Some? then OrElse(g.value.academicLevel, "") else "")
              && forall h :: h != GroupCode && h != AcademicLevel ==> FieldOf(r, h) == FieldOf(form, h)
    ensures field != GroupCode ==> r == WithField(form, field, value)
  {
    if field == GroupCode then
      var grp := FindGroup(groups, value);
      form.(groupCode := value, academicLevel := if grp.Some? then OrElse(grp.value.academicLevel, "") else "")
    else WithField(form, field, value)
  }

  // ---------------------------------------------------------------------
  // ListTab: filter, page, counts (lines 359-380)
  // ---------------------------------------------------------------------

  /** `(x || '').toLowerCase().includes(term.toLowerCase())` */
  predicate FieldMatches(x: Option<string>, term: string) {
    Contains(ToLower(OrElse(x, "")), ToLower(term))
  }

  predicate MatchesSearch(s: Student, term: string) {
    || Contains(ToLower(s.fullName), ToLower(term))
    || FieldMatches(s.groupCode, term)
    || FieldMatches(s.academicLevel, term)
    || FieldMatches(s.cardCode, term)
  }

  /** 'all' keeps everyone, 'active' the active students, any other value
      the suspended ones. */
  predicate MatchesStatus(s: Student, filter: string) {
    if filter == "all" then true else if filter == "active" then s.isActive else !s.isActive
  }

  predicate Listed(s: Student, term: string, filter: string) {
    MatchesSearch(s, term) && MatchesStatus(s, filter)
  }

  /** `students.filter(...)`: exactly the listed students. */
  function Filtered(students: seq<Student>, term: string, filter: string): (r: seq<Student>)
    ensures |r| == ListedCount(students, term, filter) <= |students|
    ensures forall s :: s in r <==> s in students && Listed(s, term, filter)
  {
    if students == [] then []
    else
      var rest := Filtered(students[1..], term, filter);
      assert forall s :: s in students <==> s == students[0] || s in students[1..];
      if Listed(students[0], term, filter) then [students[0]] + rest else rest
  }

  /** How many students the list shows. */
  function ListedCount(students: seq<Student>, term: string, filter: string): nat {
    if students == [] then 0
    else (if Listed(students[0], term, filter) then 1 else 0) + ListedCount(students[1..], term, filter)
  }

  /** Every listed student sits at the position given by the number of
      listed students before it: the filter keeps each one, once, in
      roster order, which fixes what every page holds. */
  lemma {:induction false} FilteredInOrder(students: seq<Student>, term: string, filter: string, i: nat)
    requires i < |students| && Listed(students[i], term, filter)
    ensures ListedCount(students[..i], term, filter) < |Filtered(students, term, filter)|
    ensures Filtered(students, term, filter)[ListedCount(students[..i], term, filter)] == students[i]
  {
    if i > 0 {
      FilteredInOrder(students[1..], term, filter, i - 1);
      assert students[..i][1..] == students[1..][..i - 1];
    }
  }

  /** With an empty search and the 'all' filter, the list is the roster. */
  lemma {:induction false} EmptySearchListsAll(students: seq<Student>)
    ensures Filtered(students, "", "all") == students
  {
    if students != [] {
      ContainsEmpty(ToLower(students[0].fullName));
      EmptySearchListsAll(students[1..]);
    }
  }

  /** `xs.slice(start, start + len)` for a non-negative start and length. */
  function Window(xs: seq<Student>, start: nat, len: nat): (r: seq<Student>)
    ensures |r| <= len
    ensures start >= |xs| ==> r == []
    ensures start < |xs| ==> |r| == Min(len, |xs| - start)
    ensures forall i :: 0 <= i < |r| ==> r[i] == xs[start + i]
  {
    xs[Min(start, |xs|)..Min(start + len, |xs|)]
  }

  /** `filtered.slice(page * rowsPerPage, page * rowsPerPage + rowsPerPage)`:
      at most a page of rows, the ones from offset `page * rows` on. */
  function PageOf(filtered: seq<Student>, page: nat, rows: nat): (r: seq<Student>)
    ensures |r| <= rows
  {
    Window(filtered, page * rows, rows)
  }

  /** Pages 0 .. n-1, one after the other. */
  function FirstPages(filtered: seq<Student>, rows: nat, n: nat): seq<Student> {
    if n == 0 then [] else FirstPages(filtered, rows, n - 1) + PageOf(filtered, n - 1, rows)
  }

  lemma NextOffset(n: nat, rows: nat)
    requires n > 0
    ensures (n - 1) * rows + rows == n * rows
  {
  }

  /** The first n pages are the first n * rows listed students, so the
      pages show every listed student once, in order. */
  lemma {:induction false} PagesTileList(filtered: seq<Student>, rows: nat, n: nat)
    ensures FirstPages(filtered, rows, n) == filtered[..Min(n * rows, |filtered|)]
  {
    if n > 0 {
      PagesTileList(filtered, rows, n - 1);
      var k := (n - 1) * rows;
      NextOffset(n, rows);
      var a := Min(k, |filtered|);
      var b := Min(k + rows, |filtered|);
      assert Window(filtered, k, rows) == filtered[a..b];
      assert filtered[..a] + filtered[a..b] == filtered[..b];
    }
  }

  function CountActive(students: seq<Student>): nat {
    if students == [] then 0 else (if students[0].isActive then 1 else 0) + CountActive(students[1..])
  }

  function CountSuspended(students: seq<Student>): nat {
    if students == [] then 0 else (if students[0].isActive then 0 else 1) + CountSuspended(students[1..])
  }

  lemma {:induction false} ActivePlusSuspended(students: seq<Student>)
    ensures CountActive(students) + CountSuspended(students) == |students|
  {
    if students != [] {
      ActivePlusSuspended(students[1..]);
    }
  }

  datatype Stats = Stats(total: nat, active: nat, suspended: nat)

  /** The three counter cards: every student is counted once, as active or
      as suspended. */
  function StatsOf(students: seq<Student>): (r: Stats)
    ensures r.total == |students|
    ensures r.active + r.suspended == r.total
    ensures r.active == |Filtered(students, "", "active")|
  {
    ActivePlusSuspended(students);
    ActiveCountIsActiveList(students);
    Stats(|students|, CountActive(students), CountSuspended(students))
  }

  /** The active counter equals the length of the 'active' list with an
      empty search. */
  lemma {:induction false} ActiveCountIsActiveList(students: seq<Student>)
    ensures CountActive(students) == |Filtered(students, "", "active")|
  {
    if students != [] {
      ContainsEmpty(ToLower(students[0].fullName));
      ActiveCountIsActiveList(students[1..]);
    }
  }

  // ---------------------------------------------------------------------
  // SuspendTab: loading (lines 605-681)
  // ---------------------------------------------------------------------

  /** A record of `getMySuspensions()`. */
  datatype Suspension = Suspension(
    id: string,
    student: Option<Student>,
    kind: Option<string>,
    notes: Option<string>,
    endDate: Option<string>,
    createdAt: Option<string>)

  /** A value of `suspensionMap`. */
  datatype Entry = Entry(
    kind: Option<string>,
    notes: Option<string>,
    endDate: Option<string>,
    suspensionId: Option<string>,
    createdAt: Option<string>)

  const EmptyEntry := Entry(None, None, None, None, None)

  /** `s.student?._id`, when truthy. */
  function StudentIdOf(s: Suspension): Option<string> {
    if s.student.Some? && s.student.value.id != "" then Some(s.student.value.id) else None
  }

  /** `e.slice(0, 10)`: the first ten characters, or the whole text when
      it is shorter; an ISO timestamp keeps its `YYYY-MM-DD` date. */
  function Slice10(e: string): (r: string)
    ensures |r| == Min(10, |e|) && r == e[..|r|]
    ensures |e| <= 10 ==> r == e
  {
    e[..Min(10, |e|)]
  }

  /** The map value built on mount (lines 621-626) or by the refresh button
      (lines 666-672): the refresh keeps an empty end date as '' and also
      copies `createdAt`. */
  function EntryOf(s: Suspension, refresh: bool): Entry {
    if refresh then
      Entry(s.kind, s.notes, if s.endDate.Some? then Some(Slice10(s.endDate.value)) else None, Some(s.id), s.createdAt)
    else
      Entry(s.kind, s.notes, if Truthy(s.endDate) then Some(Slice10(s.endDate.value)) else None, Some(s.id), None)
  }

  /** The map the `forEach` builds over the suspensions in order; a later
      suspension of the same student overwrites an earlier one. */
  function SuspensionMap(susps: seq<Suspension>, refresh: bool): (m: map<string, Entry>)
    ensures forall id :: id in m && m[id].endDate.Some? ==> |m[id].endDate.value| <= 10
  {
    if susps == [] then map[]
    else
      var n := |susps| - 1;
      var prev := SuspensionMap(susps[..n], refresh);
      var last := susps[n];
      if StudentIdOf(last).Some? then prev[StudentIdOf(last).value := EntryOf(last, refresh)] else prev
  }

  /** The keys are exactly the student ids of the suspensions. */
  lemma {:induction false} SuspensionMapKeys(susps: seq<Suspension>, refresh: bool, id: string)
    ensures id in SuspensionMap(susps, refresh) <==> exists i :: 0 <= i < |susps| && StudentIdOf(susps[i]) == Some(id)
  {
    if susps != [] {
      var n := |susps| - 1;
      SuspensionMapKeys(susps[..n], refresh, id);
      assert forall i :: 0 <= i < n ==> susps[..n][i] == susps[i];
      if id in SuspensionMap(susps, refresh) && StudentIdOf(susps[n]) != Some(id) {
        var i :| 0 <= i < n && StudentIdOf(susps[..n][i]) == Some(id);
      }
    }
  }

  /** A student's entry is the one of their last suspension in the list. */
  lemma {:induction false} SuspensionMapLastWins(susps: seq<Suspension>, refresh: bool, i: nat)
    requires i < |susps| && StudentIdOf(susps[i]).Some?
    requires forall j :: i < j < |susps| ==> StudentIdOf(susps[j]) != StudentIdOf(susps[i])
    ensures var id := StudentIdOf(susps[i]).value;
            var m := SuspensionMap(susps, refresh);
            id in m && m[id] == EntryOf(susps[i], refresh)
  {
    var n := |susps| - 1;
    if i < n {
      assert forall j :: i < j < n ==> susps[..n][j] == susps[j];
      SuspensionMapLastWins(susps[..n], refresh, i);
    }
  }

  /** The `forEach` loop itself, writing into `m`. */
  method BuildSuspensionMap(susps: seq<Suspension>, refresh: bool) returns (m: map<string, Entry>)
    ensures m == SuspensionMap(susps, refresh)
  {
    m := map[];
    var i := 0;
    while i < |susps|
      invariant 0 <= i <= |susps|
      invariant m == SuspensionMap(susps[..i], refresh)
    {
      assert susps[..i + 1][..i] == susps[..i];
      var s := susps[i];
      if s.student.Some? && s.student.value.id != "" {
        m := m[s.student.value.id := EntryOf(s, refresh)];
      }
      i := i + 1;
    }
    assert susps[..i] == susps;
  }

  predicate InRoster(roster: seq<Student>, id: string) {
    exists a :: a in roster && a.id == id
  }

  /** `suspensions.map((s) => s.student).filter(Boolean)` */
  function SuspendedStudents(susps: seq<Suspension>): (r: seq<Student>)
    ensures |r| == PresentCount(susps)
    ensures forall x :: x in r <==> exists s :: s in susps && s.student == Some(x)
  {
    if susps == [] then []
    else
      var rest := SuspendedStudents(susps[1..]);
      assert forall s :: s in susps <==> s == susps[0] || s in susps[1..];
      if susps[0].student.Some? then [susps[0].student.value] + rest else rest
  }

  /** How many suspensions carry a student. */
  function PresentCount(susps: seq<Suspension>): nat {
    if susps == [] then 0 else (if susps[0].student.Some? then 1 else 0) + PresentCount(susps[1..])
  }

  /** One student per suspension that carries one, in the suspensions'
      order: a student suspended twice appears twice. */
  lemma {:induction false} SuspendedStudentsInOrder(susps: seq<Suspension>, i: nat)
    requires i < |susps| && susps[i].student.Some?
    ensures PresentCount(susps[..i]) < |SuspendedStudents(susps)|
    ensures SuspendedStudents(susps)[PresentCount(susps[..i])] == susps[i].student.value
  {
    if i > 0 {
      SuspendedStudentsInOrder(susps[1..], i - 1);
      assert susps[..i][1..] == susps[1..][..i - 1];
    }
  }

  /** Exactly the students of `extra` whose id is not in `roster`. */
  function NotInRoster(extra: seq<Student>, roster: seq<Student>): (r: seq<Student>)
    ensures |r| == OffRosterCount(extra, roster)
    ensures forall x :: x in r <==> x in extra && !InRoster(roster, x.id)
  {
    if extra == [] then []
    else
      var rest := NotInRoster(extra[1..], roster);
      assert forall x :: x in extra <==> x == extra[0] || x in extra[1..];
      if InRoster(roster, extra[0].id) then rest else [extra[0]] + rest
  }

  /** How many students of `extra` have an id outside `roster`. */
  function OffRosterCount(extra: seq<Student>, roster: seq<Student>): nat {
    if extra == [] then 0
    else (if InRoster(roster, extra[0].id) then 0 else 1) + OffRosterCount(extra[1..], roster)
  }

  /** Every kept student sits at the position given by the number kept
      before it: each one is kept once and in order. */
  lemma {:induction false} NotInRosterInOrder(extra: seq<Student>, roster: seq<Student>, i: nat)
    requires i < |extra| && !InRoster(roster, extra[i].id)
    ensures OffRosterCount(extra[..i], roster) < |NotInRoster(extra, roster)|
    ensures NotInRoster(extra, roster)[OffRosterCount(extra[..i], roster)] == extra[i]
  {
    if i > 0 {
      NotInRosterInOrder(extra[1..], roster, i - 1);
      assert extra[..i][1..] == extra[1..][..i - 1];
    }
  }

  /** Lines 631-641: all students in order, then the suspensions' students
      that are not among them. */
  function Merge(all: seq<Student>, susps: seq<Suspension>): (r: seq<Student>)
    ensures |r| == |all| + NewCount(susps, all) && r[..|all|] == all
    ensures forall x :: x in r[|all|..] <==>
              (exists s :: s in susps && s.student == Some(x)) && !InRoster(all, x.id)
  {
    MergeTailLength(susps, all);
    var r := all + NotInRoster(SuspendedStudents(susps), all);
    assert r[..|all|] == all;
    assert r[|all|..] == NotInRoster(SuspendedStudents(susps), all);
    r
  }

  /** How many suspensions name a student outside the roster `all`. */
  function NewCount(susps: seq<Suspension>, all: seq<Student>): nat {
    if susps == [] then 0
    else (if susps[0].student.Some? && !InRoster(all, susps[0].student.value.id) then 1 else 0)
         + NewCount(susps[1..], all)
  }

  /** The merge's tail, one suspension at a time. */
  lemma MergeTailUnfold(susps: seq<Suspension>, all: seq<Student>)
    requires susps != []
    ensures NotInRoster(SuspendedStudents(susps), all) ==
            (if susps[0].student.Some? && !InRoster(all, susps[0].student.value.id) then [susps[0].student.value] else [])
            + NotInRoster(SuspendedStudents(susps[1..]), all)
  {
    var rest := SuspendedStudents(susps[1..]);
    if susps[0].student.Some? {
      var extra := [susps[0].student.value] + rest;
      assert SuspendedStudents(susps) == extra;
      assert extra[0] == susps[0].student.value && extra[1..] == rest;
    }
  }

  lemma {:induction false} MergeTailLength(susps: seq<Suspension>, all: seq<Student>)
    ensures |NotInRoster(SuspendedStudents(susps), all)| == NewCount(susps, all)
  {
    if susps != [] {
      MergeTailUnfold(susps, all);
      MergeTailLength(susps[1..], all);
    }
  }

  /** After the roster, the merge lists one entry per suspension whose
      student is outside the roster, in the suspensions' order: a student
      suspended twice appears twice. */
  lemma {:induction false} MergeInOrder(all: seq<Student>, susps: seq<Suspension>, i: nat)
    requires i < |susps| && susps[i].student.Some? && !InRoster(all, susps[i].student.value.id)
    ensures |all| + NewCount(susps[..i], all) < |Merge(all, susps)|
    ensures Merge(all, susps)[|all| + NewCount(susps[..i], all)] == susps[i].student.value
  {
    MergeTailInOrder(susps, all, i);
    var tail := NotInRoster(SuspendedStudents(susps), all);
    assert Merge(all, susps) == all + tail;
  }

  lemma {:induction false} MergeTailInOrder(susps: seq<Suspension>, all: seq<Student>, i: nat)
    requires i < |susps| && susps[i].student.Some? && !InRoster(all, susps[i].student.value.id)
    ensures NewCount(susps[..i], all) < |NotInRoster(SuspendedStudents(susps), all)|
    ensures NotInRoster(SuspendedStudents(susps), all)[NewCount(susps[..i], all)] == susps[i].student.value
  {
    MergeTailUnfold(susps, all);
    if i > 0 {
      MergeTailInOrder(susps[1..], all, i - 1);
      assert susps[..i][1..] == susps[1..][..i - 1];
    }
  }

  /** Every student named by a suspension is in the merged roster, so the
      tab can show and lift every suspension. */
  lemma MergeCoversSuspensions(all: seq<Student>, susps: seq<Suspension>, s: Suspension)
    requires s in susps && s.student.Some?
    ensures InRoster(Merge(all, susps), s.student.value.id)
  {
    var r := Merge(all, susps);
    var x := s.student.value;
    if InRoster(all, x.id) {
      var a :| a in all && a.id == x.id;
      assert a in r[..|all|];
    } else {
      assert x in r[|all|..];
    }
  }

  /** The tab's own status filter (lines 683-687): 'active', 'suspended',
      anything else shows everyone. */
  function TabFiltered(students: seq<Student>, filter: string): (r: seq<Student>)
    ensures |r| == TabCount(students, filter)
    ensures forall s :: s in r <==>
              s in students && (if filter == "active" then s.isActive else if filter == "suspended" then !s.isActive else true)
  {
    if students == [] then []
    else
      var rest := TabFiltered(students[1..], filter);
      assert forall s :: s in students <==> s == students[0] || s in students[1..];
      if TabKeeps(students[0], filter) then [students[0]] + rest else rest
  }

  predicate TabKeeps(s: Student, filter: string) {
    if filter == "active" then s.isActive else if filter == "suspended" then !s.isActive else true
  }

  /** How many students the tab shows. */
  function TabCount(students: seq<Student>, filter: string): nat {
    if students == [] then 0 else (if TabKeeps(students[0], filter) then 1 else 0) + TabCount(students[1..], filter)
  }

  /** Every shown student sits at the position given by the number shown
      before it: each one is shown once, in roster order. */
  lemma {:induction false} TabFilteredInOrder(students: seq<Student>, filter: string, i: nat)
    requires i < |students| && TabKeeps(students[i], filter)
    ensures TabCount(students[..i], filter) < |TabFiltered(students, filter)|
    ensures TabFiltered(students, filter)[TabCount(students[..i], filter)] == students[i]
  {
    if i > 0 {
      TabFilteredInOrder(students[1..], filter, i - 1);
      assert students[..i][1..] == students[1..][..i - 1];
    }
  }

  // ---------------------------------------------------------------------
  // SuspendTab: suspend and lift (lines 695-755)
  // ---------------------------------------------------------------------

  const NoTypeMessage := "Please select a suspension type"
  const NoEndDateMessage := "End date is required for temporary suspension"
  const PastEndDateMessage := "End date must be in the future"

  /** Lines 699-711: the three reasons to refuse before any call; `now`
      and `parseDate` stand for `new Date()` and `new Date(endDate)`. */
  function ValidateSuspension(entry: Entry, now: int, parseDate: string -> int): (r: Option<string>)
    ensures r == Some(NoTypeMessage) <==> !Truthy(entry.kind)
    ensures r == Some(NoEndDateMessage) <==> entry.kind == Some("temporary") && !Truthy(entry.endDate)
    ensures r == Some(PastEndDateMessage) <==>
              entry.kind == Some("temporary") && Truthy(entry.endDate) && now > parseDate(entry.endDate.value)
    ensures r.None? <==>
              Truthy(entry.kind) && (entry.kind == Some("temporary") ==> Truthy(entry.endDate) && now <= parseDate(entry.endDate.value))
  {
    if !Truthy(entry.kind) then Some(NoTypeMessage)
    else if entry.kind == Some("temporary") && !Truthy(entry.endDate) then Some(NoEndDateMessage)
    else if entry.kind == Some("temporary") && now > parseDate(entry.endDate.value) then Some(PastEndDateMessage)
    else None
  }

  /** `list.map((s) => (s._id === studentId ? { ...s, isActive } : s))` */
  function SetActive(students: seq<Student>, id: string, active: bool): (r: seq<Student>)
    ensures |r| == |students|
    ensures forall i :: 0 <= i < |r| ==> r[i] == if students[i].id == id then students[i].(isActive := active) else students[i]
  {
    seq(|students|, i requires 0 <= i < |students| =>
        if students[i].id == id then students[i].(isActive := active) else students[i])
  }

  /** Lifting a suspension undoes suspending a student who was active. */
  lemma LiftUndoesSuspend(students: seq<Student>, id: string)
    requires forall s :: s in students && s.id == id ==> s.isActive
    ensures SetActive(SetActive(students, id, false), id, true) == students
  {
    var r := SetActive(SetActive(students, id, false), id, true);
    forall i | 0 <= i < |students| ensures r[i] == students[i] {
      assert students[i] in students;
    }
  }

  /** A suspension never raises the active count or lowers the suspended
      count, and every student with the target id ends inactive. */
  lemma {:induction false} SuspendCounts(students: seq<Student>, id: string)
    ensures CountActive(SetActive(students, id, false)) <= CountActive(students)
    ensures CountSuspended(SetActive(students, id, false)) >= CountSuspended(students)
    ensures forall s :: s in SetActive(students, id, false) && s.id == id ==> !s.isActive
  {
    if students != [] {
      SuspendCounts(students[1..], id);
      assert SetActive(students, id, false)[1..] == SetActive(students[1..], id, false);
    }
  }

  /** The body of `suspendStudent(...)` (lines 715-720). */
  datatype SuspendRequest = SuspendRequest(studentId: string, kind: string, notes: string, endDate: Option<string>)

  /** The reply of `suspendStudent`: the new suspension's id, or a thrown
      error's `response.data.message`. */
  datatype SuspendReply = SuspendOk(suspensionId: string) | SuspendErr(message: Option<string>)

  datatype LiftReply = LiftOk | LiftErr(message: Option<string>)

  /** The replies of the two loads; `Promise.all` fails as a whole. */
  datatype LoadReply = Loaded(all: seq<Student>, susps: seq<Suspension>) | LoadFailed(message: Option<string>)

  datatype EntryField = KindField | EndDateField | NotesField

  class SuspendTab {
    var students: seq<Student>
    var suspensionMap: map<string, Entry>
    var actionLoading: map<string, bool>
    var error: string
    var dialogOpen: bool
    var selected: Option<string>
    var loading: bool
    /** `new Date(text)` on the injected clock */
    const parseDate: string -> int
    /** `new Date(t).toISOString()` */
    const isoString: int -> string

    constructor (parseDate: string -> int, isoString: int -> string)
      ensures students == [] && suspensionMap == map[] && actionLoading == map[]
      ensures error == "" && !dialogOpen && selected == None && loading
      ensures this.parseDate == parseDate && this.isoString == isoString
    {
      students, suspensionMap, actionLoading := [], map[], map[];
      error, dialogOpen, selected, loading := "", false, None, true;
      this.parseDate, this.isoString := parseDate, isoString;
    }

    /** The mount effect (lines 605-651): merged roster and map. */
    method OnMount(reply: LoadReply)
      modifies this
      ensures reply.Loaded? ==>
                students == Merge(reply.all, reply.susps) && suspensionMap == SuspensionMap(reply.susps, false)
                && error == old(error)
      ensures reply.LoadFailed? ==>
                students == old(students) && suspensionMap == old(suspensionMap)
                && error == OrElse(reply.message, "Failed to load students")
      ensures !loading && actionLoading == old(actionLoading) && dialogOpen == old(dialogOpen) && selected == old(selected)
    {
      loading := true;
      match reply {
        case Loaded(all, susps) =>
          var m := BuildSuspensionMap(susps, false);
          students := Merge(all, susps);
          suspensionMap := m;
        case LoadFailed(message) =>
          error := OrElse(message, "Failed to load students");
      }
      loading := false;
    }

    /** The refresh button's `loadData` (lines 653-681): the roster is the
        students list alone, without the merge. */
    method LoadData(reply: LoadReply)
      modifies this
      ensures reply.Loaded? ==>
                students == reply.all && suspensionMap == SuspensionMap(reply.susps, true) && error == old(error)
      ensures reply.LoadFailed? ==>
                students == old(students) && suspensionMap == old(suspensionMap)
                && error == OrElse(reply.message, "Failed to load data")
      ensures !loading && actionLoading == old(actionLoading) && dialogOpen == old(dialogOpen) && selected == old(selected)
    {
      loading := true;
      match reply {
        case Loaded(all, susps) =>
          students := all;
          var m := BuildSuspensionMap(susps, true);
          suspensionMap := m;
        case LoadFailed(message) =>
          error := OrElse(message, "Failed to load data");
      }
      loading := false;
    }

    /** `openDialog` (lines 689-693). */
    method OpenDialog(studentId: string)
      modifies this
      ensures selected == Some(studentId) && error == "" && dialogOpen
      ensures students == old(students) && suspensionMap == old(suspensionMap) && actionLoading == old(actionLoading)
      ensures loading == old(loading)
    {
      selected := Some(studentId);
      error := "";
      dialogOpen := true;
    }

    /** The dialog's type, end-date and notes inputs (lines 956-1005):
        one field of the student's entry, created empty if absent. */
    method EditEntry(studentId: string, field: EntryField, value: string)
      modifies this
      ensures var e := if studentId in old(suspensionMap) then old(suspensionMap)[studentId] else EmptyEntry;
              suspensionMap == old(suspensionMap)[studentId :=
                match field
                case KindField => e.(kind := Some(value))
                case EndDateField => e.(endDate := Some(value))
                case NotesField => e.(notes := Some(value))]
      ensures students == old(students) && actionLoading == old(actionLoading) && error == old(error)
      ensures dialogOpen == old(dialogOpen) && selected == old(selected) && loading == old(loading)
    {
      var e := if studentId in suspensionMap then suspensionMap[studentId] else EmptyEntry;
      match field {
        case KindField => e := e.(kind := Some(value));
        case EndDateField => e := e.(endDate := Some(value));
        case NotesField => e := e.(notes := Some(value));
      }
      suspensionMap := suspensionMap[studentId := e];
    }

    /** `handleSuspend` at clock `now`: refused with a message and no call
        when validation fails; otherwise the request is sent and, on
        success, the entry records the suspension, only that student
        becomes inactive and the dialog closes. One reading `now` serves
        both the end-date check before the call (`isAfter`) and the
        `createdAt` stamp after it: the time spent in the call is not
        modelled. */
    method HandleSuspend(studentId: string, now: int, reply: SuspendReply) returns (request: Option<SuspendRequest>)
      modifies this
      ensures var e := if studentId in old(suspensionMap) then old(suspensionMap)[studentId] else EmptyEntry;
              var invalid := ValidateSuspension(e, now, parseDate);
              && (invalid.Some? ==>
                    request == None && error == invalid.value
                    && students == old(students) && suspensionMap == old(suspensionMap)
                    && actionLoading == old(actionLoading) && dialogOpen == old(dialogOpen) && selected == old(selected))
              && (invalid.None? ==>
                    && request == Some(SuspendRequest(studentId, e.kind.value, OrElse(e.notes, ""),
                                                      if e.kind == Some("temporary") then e.endDate else None))
                    && actionLoading == old(actionLoading)[studentId := false]
                    && (reply.SuspendOk? ==>
                          && suspensionMap == old(suspensionMap)[studentId :=
                               e.(suspensionId := Some(reply.suspensionId), createdAt := Some(isoString(now)))]
                          && students == SetActive(old(students), studentId, false)
                          && !dialogOpen && selected == None && error == "")
                    && (reply.SuspendErr? ==>
                          && suspensionMap == old(suspensionMap) && students == old(students)
                          && dialogOpen == old(dialogOpen) && selected == old(selected)
                          && error == OrElse(reply.message, "Failed to suspend student")))
      ensures loading == old(loading)
    {
      var entry := if studentId in suspensionMap then suspensionMap[studentId] else EmptyEntry;
      var invalid := ValidateSuspension(entry, now, parseDate);
      if invalid.Some? {
        error := invalid.value;
        return None;
      }
      error := "";
      actionLoading := actionLoading[studentId := true];
      request := Some(SuspendRequest(studentId, entry.kind.value, OrElse(entry.notes, ""),
                                     if entry.kind == Some("temporary") then entry.endDate else None));
      match reply {
        case SuspendOk(suspensionId) =>
          suspensionMap := suspensionMap[studentId := entry.(suspensionId := Some(suspensionId), createdAt := Some(isoString(now)))];
          students := SetActive(students, studentId, false);
          dialogOpen := false;
          selected := None;
        case SuspendErr(message) =>
          error := OrElse(message, "Failed to suspend student");
      }
      actionLoading := actionLoading[studentId := false];
    }

    /** `handleLift`: on success only that student becomes active again and
        its map key is deleted. */
    method HandleLift(studentId: string, reply: LiftReply)
      modifies this
      ensures reply.LiftOk? ==>
                && students == SetActive(old(students), studentId, true)
                && suspensionMap == old(suspensionMap) - {studentId}
                && error == ""
      ensures reply.LiftErr? ==>
                && students == old(students) && suspensionMap == old(suspensionMap)
                && error == OrElse(reply.message, "Failed to lift suspension")
      ensures actionLoading == old(actionLoading)[studentId := false]
      ensures dialogOpen == old(dialogOpen) && selected == old(selected) && loading == old(loading)
    {
      error := "";
      actionLoading := actionLoading[studentId := true];
      match reply {
        case LiftOk =>
          students := SetActive(students, studentId, true);
          suspensionMap := suspensionMap - {studentId};
        case LiftErr(message) =>
          error := OrElse(message, "Failed to lift suspension");
      }
      actionLoading := actionLoading[studentId := false];
    }
  }
}
