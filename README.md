# academic-center-sys admin console — a Dafny model

This project models the logic of the academic centre's React admin console.
It leaves out the rendering. What it models:

- **Attendance scan intake** (`AttendanceReport`). `handleScan` is a
  single-flight lock with a 200 ms cooldown. The card-code buffer is trimmed
  and then cleared. A dedup list `recentlyScanned` gets a code only on a
  successful scan and drops it 5000 ms later. Each backend reply is sorted
  into marked, suspended or failed. The module also covers `handleKeyDown`,
  the notify-all payloads and the single-group auto-select.
- **Assistant card login** (`AssistantAuth`): scanner and manual modes, how a
  completed scan is detected, the auto-submit guard, the login outcomes and
  the mode toggle.
- **Student roster** (`StudentManagement`):
  - the list tab's search and status filter, page slice and counters;
  - the suspension tab's roster merge, suspension map, validation, suspend
    and lift;
  - the add form's field handler.
- **Admin dashboard** (`AdminDashboard`): the group dialog (schedule rows and
  the payload sent on create and edit), the status chip colours and the two
  statistics.
- **Payments** (`PaymentManagement`): the default "previous month" filter,
  the record payload, the form reset and the late-payments fallback.
- **Assistant profile** (`AssistantProfile`): the `dirty` predicate, change,
  save and load.
- **Auth store** (`AuthStore`): `token` and `role`, mirrored into
  localStorage.
- **Router** (`App`): which routes exist for a token and role, the catch-all
  redirect, and start-up rehydration.

Where the source updates state in place, the model is a class with those
fields. Each of its methods is proved equal to a pure step function or to a
stated new state. The lemmas about the screens' properties are stated over
those functions.

Everything the source gets from outside comes in as an input:

- Backend replies are datatypes (`ScanReply`, `LoginReply`, `SuspendReply`,
  …).
- The clock is an integer passed to the operation that reads it.
- Timers are explicit clock steps. For example, `TickStep(now)` fires the
  lock-release timer and every dedup-expiry timer that is due.
- Date formatting and date parsing are function-valued parameters.

Files:

- `common.dfy`: optional values, JavaScript truthiness, `trim`, ASCII
  `toLowerCase`, `includes`, `String(n)` and `Number(s)` on integers.
- `attendance_report.dfy`
- `assistant_auth.dfy`
- `student_management.dfy`
- `admin_dashboard.dfy`
- `payment_management.dfy`
- `assistant_profile.dfy`
- `store.dfy`
- `app.dfy`

### Behaviour worth knowing

- **A failed scan can be retried only after the cooldown.** The `finally`
  block of `handleScan` holds the lock for 200 ms after every reply,
  failures included, so a retry inside that window is dropped.
  - `AttendanceReport.CooldownDropsScans` proves that a retry inside the
    window is dropped.
  - `AttendanceReport.FailedScanRetried` proves that it reaches the backend
    once the window has passed.
- **`recentlyScanned` is the dedup list itself.** A code is refused while it
  is listed, and its 5000 ms removal timer ends the refusal. A code is only
  ever appended after a success, never refreshed, because a listed code is
  refused before any call.
- **`scanComplete` only ever goes from false to true on input.** In the
  login screen, `handleScannerInput` sets `scanComplete` when the value
  reaches six characters, but never clears it on a shorter one. The flag
  goes back to false only when a login attempt ends.
- **The daily refetch after a scan never happens.** `handleScan` refetches
  the daily summary when a scan succeeds while `tab === 1`. The scan form
  is rendered only while `tab === 0` (src/pages/AttendanceReport.jsx:389),
  so on the page that branch is never taken. `AttendanceReport.SettleStep`
  keeps `tab` as a parameter and states the branch as written.
- **The refresh button does not merge the roster.** The suspension tab's
  refresh (`loadData`) sets the roster to the students list alone. It does
  not merge in the suspensions' students the way the mount effect does. It
  also keeps an empty end date as `''` instead of `null`, and copies
  `createdAt`. Both ways of loading are modelled:
  `StudentManagement.SuspendTab.OnMount` and
  `StudentManagement.SuspendTab.LoadData`.

## Model

| member | source | states |
|---|---|---|
| Common.TrimEmptyIffBlank | src/pages/AttendanceReport.jsx:122 | `!cardCode.trim()` holds exactly when the buffer is empty or only white space |
| Common.TrimIsSlice | src/pages/AttendanceReport.jsx:127 | the trimmed code is a contiguous piece of the buffer with no white space at either end, and only white space is cut away |
| Common.TrimIdempotent | src/pages/AttendanceReport.jsx:127 | trimming an already trimmed code changes nothing |
| Common.TrimStartSpec | src/pages/AttendanceReport.jsx:127 | removing leading white space leaves a suffix that starts with a non-space, and the part cut off is all white space |
| Common.TrimEndSpec | src/pages/AttendanceReport.jsx:127 | removing trailing white space leaves a prefix that ends with a non-space, and the part cut off is all white space |
| Common.ToLower | src/pages/StudentManagement.jsx:361-364 | lower-casing keeps the length and maps each character through the ASCII case fold |
| Common.ContainsEmpty | src/pages/StudentManagement.jsx:361 | every string includes the empty search term |
| Common.NatToString | src/pages/AdminDashboard.jsx:274 | the decimal text of a number is non-empty, all digits and has no leading zero |
| Common.ParseNatToString | src/pages/AdminDashboard.jsx:274 | reading back the decimal digits of a natural number gives the number |
| Common.NumberOfString | src/pages/AdminDashboard.jsx:330 | `Number(String(n))` is `n` for every integer |
| AttendanceReport.Classify | src/pages/AttendanceReport.jsx:139-172 | marked iff `success` is true, named by the student's `fullName` or 'Unknown Student'; suspended iff the suspended guard holds and the suspension and student exist, with the student's name, permanence and end date from the reply; a suspended reply missing either gives 'Scan failed'; any other resolved reply shows `data.message` or 'Scan failed'; a thrown error shows its message or 'Scan failed' |
| AttendanceReport.SuspensionMessage | src/pages/AttendanceReport.jsx:141-153 | the text says "permanently" or "temporarily suspended", and carries " until <date>." exactly when an end date is present |
| AttendanceReport.DistinctCodesUnique | src/pages/AttendanceReport.jsx:130 | in a dedup list with no repeated code, two entries with the same code are the same entry |
| AttendanceReport.Without | src/pages/AttendanceReport.jsx:161-164 | the removal filter keeps exactly the entries whose code is not removed, one per such entry, removes those codes and no others, and keeps codes distinct |
| AttendanceReport.WithoutInOrder | src/pages/AttendanceReport.jsx:161-164 | each kept entry sits at the position counted by the kept entries before it, so the list keeps its order |
| AttendanceReport.ExpireKeepsLive | src/pages/AttendanceReport.jsx:158-165 | once due timers fire, exactly the entries whose 5000 ms have not passed remain |
| AttendanceReport.InitialValid | src/pages/AttendanceReport.jsx:75-81 | the initial scan state is unlocked, with an empty dedup list, and satisfies the intake invariant |
| AttendanceReport.ScanStep | src/pages/AttendanceReport.jsx:116-138 | locked: nothing changes and no call; blank buffer: message and no call, lock released; otherwise the code is the trimmed buffer and the buffer is cleared; a listed code gets the duplicate message and no call; the call happens iff unlocked, non-blank and not listed; the invariant is preserved |
| AttendanceReport.SettleStep | src/pages/AttendanceReport.jsx:139-178 | every reply turns the spinner off and schedules the lock release at +200 ms; only a success appends the code with expiry at +5000 ms; any other outcome leaves the list as it was and sets a non-empty error; the daily summary is refetched iff success on tab 1; the invariant is preserved |
| AttendanceReport.TickStep | src/pages/AttendanceReport.jsx:158-177 | a due release frees the lock; due expiries remove their codes; nothing else changes; the invariant is preserved |
| AttendanceReport.InputStep | src/pages/AttendanceReport.jsx:407 | typing only replaces the buffer and keeps the invariant |
| AttendanceReport.KeyDownStep | src/pages/AttendanceReport.jsx:180-182 | Enter with a non-empty buffer scans; any other key, or an empty buffer, changes nothing |
| AttendanceReport.InFlightBurstIgnored | src/pages/AttendanceReport.jsx:118 | while a call is outstanding, any number of further scans sends nothing and changes only the typed buffer |
| AttendanceReport.BurstSendsAtMostOnce | src/pages/AttendanceReport.jsx:117-119 | of any burst of scans before a reply, at most one reaches the backend |
| AttendanceReport.DedupBlocksWithinWindow | src/pages/AttendanceReport.jsx:130-136 | after a successful scan, the same trimmed code does not reach the backend before 5000 ms |
| AttendanceReport.DedupExpiresAfterWindow | src/pages/AttendanceReport.jsx:161-164 | from 5000 ms after the success on, the same code reaches the backend again |
| AttendanceReport.FailedScanRetried | src/pages/AttendanceReport.jsx:166-177 | a failed or suspended scan leaves no dedup entry, so the code is sent again once the 200 ms cooldown has passed |
| AttendanceReport.CooldownDropsScans | src/pages/AttendanceReport.jsx:173-177 | within 200 ms of a reply every scan is dropped |
| AttendanceReport.ScanIntake.constructor | src/pages/AttendanceReport.jsx:75-81 | the scan state starts unlocked, empty and valid |
| AttendanceReport.ScanIntake.OnCardCodeChange | src/pages/AttendanceReport.jsx:407 | the field update is `InputStep` |
| AttendanceReport.ScanIntake.HandleScan | src/pages/AttendanceReport.jsx:116-138 | the in-place updates up to the call produce exactly `ScanStep`'s state and submission |
| AttendanceReport.ScanIntake.OnScanSettled | src/pages/AttendanceReport.jsx:139-178 | the updates after the call produce exactly `SettleStep`'s state and refetch decision |
| AttendanceReport.ScanIntake.OnClock | src/pages/AttendanceReport.jsx:158-177 | the loop that filters out due codes, with the lock release, produces exactly `TickStep`'s state |
| AttendanceReport.ScanIntake.HandleKeyDown | src/pages/AttendanceReport.jsx:180-182 | the key handler is `KeyDownStep` |
| AttendanceReport.DailyNotices | src/pages/AttendanceReport.jsx:272-279 | no daily data, no payload; otherwise one notice per absent student, in order, with the selected group and date and no absence count |
| AttendanceReport.MonthlyNotices | src/pages/AttendanceReport.jsx:319-329 | exactly the students with at least one absence get a notice, one per such row, each carrying their positive absence count |
| AttendanceReport.MonthlyNoticesInOrder | src/pages/AttendanceReport.jsx:321-329 | each row with absences gets its notice at the position counted by such rows before it, so the notices follow the rows' order, one per row |
| AttendanceReport.GroupOptions | src/pages/AttendanceReport.jsx:191 | the options are exactly the present, non-empty group codes, one option per such entry (repeats included) |
| AttendanceReport.GroupOptionsInOrder | src/pages/AttendanceReport.jsx:191 | each kept code appears at the position counted by the kept codes before it, so the filter keeps every one once and in order |
| AttendanceReport.AutoSelectGroup | src/pages/AttendanceReport.jsx:193-195 | with exactly one group it becomes the filter; otherwise the filter is unchanged |
| AttendanceReport.AutoSelectIffOneGroup | src/pages/AttendanceReport.jsx:191-195 | after `fetchGroups` the filter is replaced exactly when one code survives `filter(Boolean)`, and then by that code; two entries with the same code select nothing |
| AssistantAuth.ScannerInput | src/pages/AssistantAuth.jsx:65-73 | in scan mode the buffer takes the value and a value of length >= 6 marks the scan complete, a shorter one leaves the flag; in manual mode nothing changes |
| AssistantAuth.Input | src/pages/AssistantAuth.jsx:117 | either mode's input handler sets the buffer to the value; manual input never touches the completion flag |
| AssistantAuth.LoginStep | src/pages/AssistantAuth.jsx:43-62 | empty id: no call and no change; success: signed in with the token; failure: the server message or 'Login failed', with the buffer cleared only in scan mode; every attempt ends with `loading` and `scanComplete` false |
| AssistantAuth.ToggleAsWritten | src/pages/AssistantAuth.jsx:75-78 | the toggle flips the mode and clears the buffer and error, leaving `scanComplete` as it was |
| AssistantAuth.ManualEntryAutoSubmitsAsWritten | src/pages/AssistantAuth.jsx:34-41 | with the toggle as written, scan "A1B2C3", toggle, type "A": an auto-submit is due in manual mode for the partial id "A" |
| AssistantAuth.Toggle | src/pages/AssistantAuth.jsx:75-78 | the corrected toggle also clears the completion flag, so no auto-submit is due after it |
| AssistantAuth.StepsKeepConsistent | src/pages/AssistantAuth.jsx:34-41 | with the corrected toggle, every step keeps "no login in progress, completion only in scan mode", so an auto-submit is only ever due in scan mode |
| AssistantAuth.LoginLandsOnProfile | src/pages/AssistantAuth.jsx:50-52 | the page a successful login navigates to is a route the router renders for an assistant |
| AssistantAuth.AssistantLogin.constructor | src/pages/AssistantAuth.jsx:24-28 | the form starts empty in scan mode, with no completion |
| AssistantAuth.AssistantLogin.HandleScannerInput | src/pages/AssistantAuth.jsx:65-73 | the in-place update is `ScannerInput` |
| AssistantAuth.AssistantLogin.OnInputChange | src/pages/AssistantAuth.jsx:117 | the in-place update is `Input` |
| AssistantAuth.AssistantLogin.HandleLogin | src/pages/AssistantAuth.jsx:43-62 | the form follows `LoginStep`; on success the store holds the token with role 'assistant', both mirrored to storage, and the location is '/assistant/profile'; otherwise the store and location are untouched |
| AssistantAuth.AssistantLogin.FireAutoSubmit | src/pages/AssistantAuth.jsx:34-41 | the timer logs in only while `scanComplete` holds and the id is non-empty, then as `HandleLogin` does (store, storage and location set on success); when nothing is sent, or the login fails, the store, storage and location are untouched |
| AssistantAuth.AssistantLogin.ToggleInputMode | src/pages/AssistantAuth.jsx:75-78 | the in-place update is the corrected `Toggle` of the finding below: mode flipped, buffer and error cleared, and the completion flag cleared too |
| StudentManagement.WithField | src/pages/StudentManagement.jsx:168 | only the named field takes the value |
| StudentManagement.FindGroup | src/pages/StudentManagement.jsx:161 | `find` returns the first group with the code, and nothing exactly when no group has it |
| StudentManagement.HandleFormChange | src/pages/StudentManagement.jsx:158-170 | choosing a group also sets the level to that group's level, or '' when the group is not found or has none, leaving every other field; any other field changes only itself |
| StudentManagement.Filtered | src/pages/StudentManagement.jsx:359-372 | a student is listed iff the lower-cased term occurs in the name, group, level or card code and the status filter matches; the list has one entry per such roster entry |
| StudentManagement.FilteredInOrder | src/pages/StudentManagement.jsx:359-374 | each listed student sits at the position counted by the listed students before it, so the list keeps roster order and the pages' contents are fixed |
| StudentManagement.EmptySearchListsAll | src/pages/StudentManagement.jsx:359-372 | an empty search with filter 'all' lists the whole roster, in order |
| StudentManagement.Window | src/pages/StudentManagement.jsx:374 | the slice holds at most a page of rows, those from the page's offset on, and is empty past the end |
| StudentManagement.PageOf | src/pages/StudentManagement.jsx:374 | a page never holds more than `rowsPerPage` students |
| StudentManagement.PagesTileList | src/pages/StudentManagement.jsx:374 | the first n pages together are the first n·rows listed students, so every listed student is on exactly one page |
| StudentManagement.ActivePlusSuspended | src/pages/StudentManagement.jsx:376-380 | active and suspended counts add up to the roster size |
| StudentManagement.StatsOf | src/pages/StudentManagement.jsx:376-380 | total is the roster size, active + suspended = total, and active equals the 'active' list length |
| StudentManagement.ActiveCountIsActiveList | src/pages/StudentManagement.jsx:378 | the active counter equals the length of the 'active' list with an empty search |
| StudentManagement.Slice10 | src/pages/StudentManagement.jsx:624 | `slice(0, 10)` is exactly the first min(10, length) characters, and a text of at most 10 characters is kept whole |
| StudentManagement.SuspensionMap | src/pages/StudentManagement.jsx:618-628 | every end date in the map is at most 10 characters |
| StudentManagement.SuspensionMapKeys | src/pages/StudentManagement.jsx:618-628 | the map has a key exactly for each suspension's truthy student id |
| StudentManagement.SuspensionMapLastWins | src/pages/StudentManagement.jsx:618-628 | a student's entry is built from the last suspension naming them |
| StudentManagement.BuildSuspensionMap | src/pages/StudentManagement.jsx:618-628 | the `forEach` loop writing into `m` builds exactly `SuspensionMap` |
| StudentManagement.SuspendedStudents | src/pages/StudentManagement.jsx:631-633 | the students taken from suspensions are exactly the present ones, one per suspension that carries a student |
| StudentManagement.SuspendedStudentsInOrder | src/pages/StudentManagement.jsx:631-633 | each suspension's student sits at the position counted by the students before it: suspension order, and a student suspended twice appears twice |
| StudentManagement.NotInRoster | src/pages/StudentManagement.jsx:638-640 | exactly the students whose id is not in the roster are kept, one entry per such student entry |
| StudentManagement.NotInRosterInOrder | src/pages/StudentManagement.jsx:638-640 | each kept student sits at the position counted by the kept students before it, so order and repeats are kept |
| StudentManagement.Merge | src/pages/StudentManagement.jsx:636-641 | the merged roster starts with all students in order, followed by exactly the suspensions' students whose id is not among them, one entry per such suspension |
| StudentManagement.MergeTailLength | src/pages/StudentManagement.jsx:631-641 | the part after the roster has one entry per suspension whose student is outside the roster |
| StudentManagement.MergeInOrder | src/pages/StudentManagement.jsx:631-641 | after the roster, each suspension whose student is outside it contributes that student at the position counted by such suspensions before it: suspension order, repeats kept |
| StudentManagement.MergeTailInOrder | src/pages/StudentManagement.jsx:631-641 | the same placement stated for the appended part alone |
| StudentManagement.MergeCoversSuspensions | src/pages/StudentManagement.jsx:631-641 | every student named by a suspension is in the merged roster |
| StudentManagement.TabFiltered | src/pages/StudentManagement.jsx:683-687 | the suspension tab lists the active, the suspended or everyone, as filtered, one entry per kept roster entry |
| StudentManagement.TabFilteredInOrder | src/pages/StudentManagement.jsx:683-687 | each shown student sits at the position counted by the shown students before it, so roster order is kept |
| StudentManagement.ValidateSuspension | src/pages/StudentManagement.jsx:699-711 | three refusals, each iff its condition: no type; temporary without end date; temporary with an end date already past; accepted otherwise |
| StudentManagement.SetActive | src/pages/StudentManagement.jsx:725-727 | only the target student's `isActive` changes; everyone else is unchanged |
| StudentManagement.LiftUndoesSuspend | src/pages/StudentManagement.jsx:742-744 | lifting restores a roster in which the student was active before the suspension |
| StudentManagement.SuspendCounts | src/pages/StudentManagement.jsx:725-727 | a suspension does not raise the active count or lower the suspended count, and leaves every student with the target id inactive |
| StudentManagement.SuspendTab.constructor | src/pages/StudentManagement.jsx:597-605 | the tab starts empty and loading |
| StudentManagement.SuspendTab.OnMount | src/pages/StudentManagement.jsx:605-651 | on success the roster is `Merge` and the map is `SuspensionMap`; on failure the message or 'Failed to load students'; loading ends |
| StudentManagement.SuspendTab.LoadData | src/pages/StudentManagement.jsx:653-681 | on success the roster is the students list unmerged and the map is the refresh variant; on failure 'Failed to load data' |
| StudentManagement.SuspendTab.OpenDialog | src/pages/StudentManagement.jsx:689-693 | the dialog opens for the student with the error cleared |
| StudentManagement.SuspendTab.EditEntry | src/pages/StudentManagement.jsx:957-1007 | the dialog inputs set one field of the student's entry, creating it empty if absent |
| StudentManagement.SuspendTab.HandleSuspend | src/pages/StudentManagement.jsx:695-735 | an invalid entry sets its message with no request; otherwise the request carries type, notes ('' default) and an end date only for temporary; on success only that student is suspended, the entry gets the id and time, and the dialog closes; on failure the message or 'Failed to suspend student' |
| StudentManagement.SuspendTab.HandleLift | src/pages/StudentManagement.jsx:737-755 | on success only that student becomes active and the map key is deleted; on failure the message or 'Failed to lift suspension'; the student's action flag ends false |
| AdminDashboard.SetRowField | src/pages/AdminDashboard.jsx:299 | one field of a schedule row takes the value, the others keep theirs |
| AdminDashboard.ScheduleChanged | src/pages/AdminDashboard.jsx:296-302 | only the named field of row `idx` changes; every other row is unchanged |
| AdminDashboard.RowAdded | src/pages/AdminDashboard.jsx:304-311 | exactly one empty row is appended after the unchanged rows |
| AdminDashboard.RowRemoved | src/pages/AdminDashboard.jsx:313-320 | exactly row `idx` is removed and the others keep their order; an index out of range changes nothing |
| AdminDashboard.RemoveUndoesAdd | src/pages/AdminDashboard.jsx:304-320 | removing the row just added gives the rows back |
| AdminDashboard.Rows | src/pages/AdminDashboard.jsx:275-279 | the schedule keeps each slot's day and times, in order |
| AdminDashboard.EditDraft | src/pages/AdminDashboard.jsx:268-282 | the edit dialog holds the group's id, code and level, a capacity text that `Number` reads back as the capacity, and the reduced schedule |
| AdminDashboard.Payload | src/pages/AdminDashboard.jsx:326-335 | the payload keeps code and level, converts the capacity with `Number` and sends the rows as they are, in order |
| AdminDashboard.EditThenSubmitRoundTrip | src/pages/AdminDashboard.jsx:268-335 | saving an opened group unchanged sends its own code, level, capacity and schedule times |
| AdminDashboard.NewGroupCapacityIsZero | src/pages/AdminDashboard.jsx:255-266 | a new group saved untouched sends capacity 0 (`Number('')`) and one empty row |
| AdminDashboard.StatusColor | src/pages/AdminDashboard.jsx:366-373 | the chip is coloured iff the status is present, absent or late: present gives 'success', absent 'error', late 'warning' |
| AdminDashboard.StatusColorsDistinct | src/pages/AdminDashboard.jsx:366-373 | the three known statuses get three different colours |
| AdminDashboard.TotalStudentsAppend | src/pages/AdminDashboard.jsx:376 | the capacity total of two group lists is the sum of their totals |
| AdminDashboard.NonNegativeTotal | src/pages/AdminDashboard.jsx:376 | non-negative capacities give a non-negative total |
| AdminDashboard.TotalStudentsBounds | src/pages/AdminDashboard.jsx:376 | with non-negative capacities the total is at least any one group's capacity |
| AdminDashboard.TodayAttendanceIsSuccessChips | src/pages/AdminDashboard.jsx:377 | today's attendance counts exactly the records shown with the 'success' chip, and never exceeds the record count |
| AdminDashboard.CountColourLast | src/pages/AdminDashboard.jsx:366-377 | the chip count of a list is that of its prefix plus its last record |
| AdminDashboard.GroupDialog.constructor | src/pages/AdminDashboard.jsx:152-162 | the dialog starts closed in create mode with the new-group draft |
| AdminDashboard.GroupDialog.OpenCreate | src/pages/AdminDashboard.jsx:255-266 | the dialog opens in create mode with the new-group draft |
| AdminDashboard.GroupDialog.OpenEdit | src/pages/AdminDashboard.jsx:268-282 | the dialog opens in edit mode with `EditDraft` |
| AdminDashboard.GroupDialog.Close | src/pages/AdminDashboard.jsx:285 | only the dialog's visibility changes |
| AdminDashboard.GroupDialog.SetField | src/pages/AdminDashboard.jsx:293-294 | only the named draft field changes |
| AdminDashboard.GroupDialog.ChangeSchedule | src/pages/AdminDashboard.jsx:296-302 | the copied-and-reassigned row array is `ScheduleChanged` |
| AdminDashboard.GroupDialog.AddRow | src/pages/AdminDashboard.jsx:304-311 | the schedule becomes `RowAdded` |
| AdminDashboard.GroupDialog.RemoveRow | src/pages/AdminDashboard.jsx:313-320 | the schedule becomes `RowRemoved` |
| AdminDashboard.GroupDialog.Submit | src/pages/AdminDashboard.jsx:322-349 | create mode sends a create request and edit mode an update with the draft's id; success closes the dialog and refetches; failure keeps it open with the message or 'Operation failed.' |
| PaymentManagement.DefaultLateFilter | src/pages/PaymentManagement.jsx:67-71 | the default filter is exactly one month before the current one, and its month lies in 1..12 |
| PaymentManagement.DefaultFilterIsPreviousMonth | src/pages/PaymentManagement.jsx:67-71 | the month after the default filter's month is the current month: January wraps back to December of the previous year |
| PaymentManagement.WithField | src/pages/PaymentManagement.jsx:91-94 | only the named form field takes the value |
| PaymentManagement.RecordPayload | src/pages/PaymentManagement.jsx:105-110 | card code and method are sent as they are; month, year and amount go through `Number` |
| PaymentManagement.InitialPayload | src/pages/PaymentManagement.jsx:53-59 | the untouched form sends the current month and year as numbers, amount 0 and the cash method |
| PaymentManagement.AfterRecorded | src/pages/PaymentManagement.jsx:116 | card code and amount are cleared; month, year and method are kept |
| PaymentManagement.NextPaymentKeepsPeriod | src/pages/PaymentManagement.jsx:116 | after a recorded payment the next payload has the same month, year and method, no card and amount 0; clearing twice is clearing once |
| PaymentManagement.PaymentScreen.constructor | src/pages/PaymentManagement.jsx:47-76 | the form and the filter start from the clock reading; the statuses are idle and the late list is empty |
| PaymentManagement.PaymentScreen.HandleFormChange | src/pages/PaymentManagement.jsx:91-94 | the form becomes `WithField`, nothing else changes |
| PaymentManagement.PaymentScreen.HandleRecordPayment | src/pages/PaymentManagement.jsx:101-124 | sends `RecordPayload`; success shows the confirmation, clears the form and refetches; failure keeps the form and shows the message or 'Failed to record payment' |
| PaymentManagement.PaymentScreen.FetchLatePayments | src/pages/PaymentManagement.jsx:126-143 | the current filter is requested; missing data or a failure leaves the empty list outside the late period, with the failure's message or 'Failed to load late payments' |
| AssistantProfile.DirtyIffChanged | src/pages/AssistantProfile.jsx:63-66 | `dirty` holds iff the profile differs from the baseline, i.e. iff some field differs |
| AssistantProfile.Changed | src/pages/AssistantProfile.jsx:46-48 | only the named field takes the value |
| AssistantProfile.EditDirtiesIffDifferent | src/pages/AssistantProfile.jsx:46-66 | from a saved state an edit makes the page dirty iff it changes the value, and typing the old value back makes it clean |
| AssistantProfile.ProfileScreen.constructor | src/pages/AssistantProfile.jsx:24-29 | a blank form against an empty baseline, loading |
| AssistantProfile.ProfileScreen.OnLoaded | src/pages/AssistantProfile.jsx:32-44 | a loaded profile becomes both the form and the baseline, so the page is clean; a failure sets the message or 'Failed to load profile.' |
| AssistantProfile.ProfileScreen.HandleChange | src/pages/AssistantProfile.jsx:46-48 | the profile becomes `Changed`, and the baseline is untouched |
| AssistantProfile.ProfileScreen.HandleSave | src/pages/AssistantProfile.jsx:50-61 | the profile is sent; success makes it the baseline, so nothing is dirty; failure keeps the baseline and dirtiness and sets the message or 'Update failed.' |
| AuthStore.Store.constructor | src/context/store.js:3-5 | token and role start null, whatever storage holds |
| AuthStore.Store.SetAuth | src/context/store.js:6-10 | both fields are set and both storage keys written with the same values |
| AuthStore.Store.ClearAuth | src/context/store.js:11-15 | both fields are nulled and both storage keys removed, other keys kept |
| App.Routes | src/App.js:43-69 | '/' and '/assistants' always exist; '/dashboard' iff token and admin; the four staff pages iff token and assistant or admin; no other route |
| App.Fallback | src/App.js:72-85 | the catch-all goes to '/' without a token, '/dashboard' for an admin, '/students' for any other role |
| App.FallbackTargetExists | src/App.js:43-85 | for the stored roles, or no token, a redirect lands on a rendered route; any other role is redirected from '/students' to '/students' |
| App.Rehydrate | src/App.js:30-34 | `setAuth` runs with the stored values only when both keys are present and non-empty |

## Left out

- `AssistantAuth.AssistantLogin.ToggleInputMode` applies the corrected toggle
  (`AssistantAuth.Toggle`), so the class does not reach the state in which
  the page as written auto-submits a manual id. That state is exhibited
  on the pure step functions by `AssistantAuth.ManualEntryAutoSubmitsAsWritten`.
- `AttendanceReport.KeyDownStep` models the field's `onKeyDown` handler only.
  The field sits inside a form whose `onSubmit` is `handleScan`, so on the
  page Enter, or the submit button, with an empty buffer still reaches
  `handleScan` and shows the blank-code message (`ScanStep`'s blank branch).
  The browser's form submission is not modelled.
- Rendering, styling, animation, focus handling and the console logging are
  not modelled.
- Axios, the endpoint wrappers and the proxy are left out. Every backend call
  is an input datatype, and the request the screen would send is an output.
- Async interleaving and React's batching and stale closures are left out.
  Only `handleScan` is split at its `await`, into `ScanStep` and
  `SettleStep`. Every other handler with a backend call is one atomic step:
  `LoginStep`, `HandleSave`, `HandleSuspend`, `HandleLift`, `Submit`,
  `HandleRecordPayment`, `FetchLatePayments`, `OnMount` and `LoadData`.
  Events that arrive while one of their calls is outstanding are not
  modelled.
- `AssistantAuth.LoginStep` / `AssistantAuth.AssistantLogin.HandleLogin`:
  the login is one atomic step, so the model cannot show two logins in
  flight at once. `handleLogin` (src/pages/AssistantAuth.jsx:43-62) has no
  `loading` guard, and the scan-mode form has no submit button. So a
  scanner's trailing Enter submits the form at once, and the 500 ms timer
  of lines 34-41 then sends a second `assistantCardLogin` while the first
  is outstanding. The model also cannot show a scan completed during the
  call having its timer cancelled when the `finally` at line 60 clears
  `scanComplete`.
- Timers become clock steps: `TickStep` fires the 200 ms lock release and the
  5000 ms dedup expiry, and `FireAutoSubmit` stands for the 500 ms login
  timer. The effect cleanup that cancels a pending login timer is not
  modelled separately. `FireAutoSubmit` re-checks the guard instead.
- The 50 ms re-focus timer in `handleScan` is left out.
- Dates are integers. `format`, `new Date(text)` and `toISOString` are
  function parameters.
- `Common.ToLower`, `Common.Trim`: only ASCII letters are case-folded and
  only ASCII white space is trimmed. Unicode case folding and Unicode spaces
  are not modelled.
- `Common.ToNumber` reads integers only. Fractions, exponents, hexadecimal
  and `Infinity` read as NaN, although JavaScript accepts them.
- `AttendanceReport.Classify` does not model a `format` that throws on an
  invalid end date, which would turn a suspended reply into "Scan failed".
- `AttendanceReport.MonthlyNotices` takes the monthly rows directly. The
  `!monthlyData` early return is the same kind of guard as the daily one.
- `AttendanceReport.DailyNotices` and `AttendanceReport.MonthlyNotices`:
  `rec.student` missing in a daily record is not modelled.
- The notify status messages and the single monthly notification are left
  out.
- `StudentManagement.ValidateSuspension`: the entry's `notes` default `''`
  applies to an absent value only. A `null` note from the backend is not
  distinguished from an absent one.
- `StudentManagement.SuspendTab`: the `actionLoading` flag is observable only
  at the end of an action. The transient `true` while the call runs is not
  stated.
- `PaymentManagement.PaymentScreen.HandleRecordPayment`: the transient
  `loading: true` status while the call runs is not stated.
- `PaymentManagement.PaymentScreen.FetchLatePayments`: the `loading: true`
  state before the call is likewise not stated.
- `PaymentManagement.InitialForm` holds the initial month and year as
  decimal text, although the source stores the numbers themselves. `Number`
  reads either back as the same number (`PaymentManagement.InitialPayload`).
- The late-payment filter's change handler and the reminder dialog
  (`sendPaymentReminder`) are left out. They write one filter field and
  forward a request.
- The add form's submit, avatar handling and the list tab's delete and edit
  dialogs in `StudentManagement.jsx` are left out. They are calls and
  rendering outside the modelled rules.
- `AdminDashboard.ScheduleChanged`: it requires a row index that exists, as
  the dialog only calls it for rendered rows. Assigning past the end, which
  JavaScript would allow, is not modelled.
- `AdminDashboard.TotalStudents` assumes numeric capacities. A string
  capacity from the backend would concatenate in JavaScript.
- `App.Routes`: only the route table is modelled. `ErrorBoundary`, `Navbar`
  and React Router's matching of nested paths are not.
- src/pages/Auth.jsx, src/components/payments/PaymentsList.jsx and
  src/components/common/NotificationPanel.jsx are not part of this model.
  They are fetch-and-render or form-and-alert screens.

## Findings

| source | as written | input that shows it | evidently intended | confidence | as-written member | corrected member |
|---|---|---|---|---|---|---|
| src/pages/AssistantAuth.jsx:75-78 | `toggleInputMode` flips the mode and clears `cardId` and `error`, but leaves `scanComplete` set | scan "A1B2C3", switch to manual entry before the 500 ms timer fires, type "A": the auto-submit effect (lines 34-41) sees `scanComplete && cardId.length > 0` and logs in with the partial id "A" | switching modes also clears `scanComplete`, so auto-submit happens only after a completed scan in scan mode | medium, not executed | AssistantAuth.ManualEntryAutoSubmitsAsWritten | AssistantAuth.StepsKeepConsistent |
