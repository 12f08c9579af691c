/** The attendance scan screen (src/pages/AttendanceReport.jsx): the card-scan
    intake of `handleScan` (single-flight lock, input buffer, dedup list and
    reply classification), `handleKeyDown`, the notify-all payloads and the
    single-group auto-select of `fetchGroups`.

    `handleScan` has one suspension point, the `await scanAttendance(...)`.
    It is modelled as two atomic steps: `ScanStep` (everything up to the
    call) and `SettleStep` (everything after it). The two `setTimeout`
    callbacks (lock release after 200 ms, dedup expiry after 5000 ms) become
    `TickStep(now)` on an injected clock: an entry of the dedup list stands
    for its pending expiry timer, and `lockFreeAt` for the pending release. */
module AttendanceReport {
  import opened Common

  const DedupWindowMs: int := 5000
  const LockCooldownMs: int := 200
  const BlankCodeMessage := "Please enter or scan a card code."
  const DuplicateMessage := "This card was already scanned recently."
  const SuspendedMarker := "Student is suspended"
  const ScanFailedMessage := "Scan failed"
  const UnknownStudentName := "Unknown Student"

  // ---------------------------------------------------------------------
  // The reply of `scanAttendance`, an input of the model
  // ---------------------------------------------------------------------

  datatype Student = Student(fullName: Option<string>)

  /** `kind` is `suspension.type`; any value other than "permanent" (absent
      included) reads as temporary. `endDate` is None when absent or empty;
      dates are instants on the injected clock. */
  datatype Suspension = Suspension(kind: string, endDate: Option<int>)

  /** `res.data.data` */
  datatype ReplyData = ReplyData(message: Option<string>, student: Option<Student>, suspension: Option<Suspension>)

  /** `res.data`; `success` is None when the field is absent. */
  datatype ReplyBody = ReplyBody(success: Option<bool>, data: Option<ReplyData>)

  /** The awaited call either resolves with a response whose `data` may be
      absent, or throws; `message` is `err.response?.data?.message`. */
  datatype ScanReply = Resolved(body: Option<ReplyBody>) | Rejected(message: Option<string>)

  /** What the screen makes of a reply. */
  datatype ScanOutcome =
    | Marked(name: string)
    | Suspended(studentName: string, permanent: bool, until: Option<int>)
    | Failed(message: string)

  /** The guard of the suspended branch: `res.data && res.data.success ===
      false && res.data.data.message === "Student is suspended"`. */
  predicate IsSuspendedReply(reply: ScanReply) {
    && reply.Resolved? && reply.body.Some?
    && reply.body.value.success == Some(false)
    && reply.body.value.data.Some?
    && reply.body.value.data.value.message == Some(SuspendedMarker)
  }

  /** `res.data?.data?.message` */
  function DataMessage(reply: ScanReply): Option<string> {
    if reply.Resolved? && reply.body.Some? && reply.body.value.data.Some? then reply.body.value.data.value.message else None
  }

  /** `res.data?.data?.student?.fullName` */
  function StudentName(reply: ScanReply): Option<string> {
    if reply.Resolved? && reply.body.Some? && reply.body.value.data.Some? && reply.body.value.data.value.student.Some?
    then reply.body.value.data.value.student.value.fullName
    else None
  }

  /** The `try` block after the call, with the `catch` for what it throws.
      Inside the suspended branch a missing `res.data.data`, `suspension`
      or `student` raises a TypeError, which the `catch` turns into
      "Scan failed" (the error has no `response`). */
  function Classify(reply: ScanReply): (o: ScanOutcome)
    ensures o.Marked? <==> reply.Resolved? && reply.body.Some? && reply.body.value.success == Some(true)
    ensures o.Suspended? <==>
              IsSuspendedReply(reply)
              && reply.body.value.data.value.suspension.Some?
              && reply.body.value.data.value.student.Some?
    ensures o.Suspended? ==> (o.permanent <==> reply.body.value.data.value.suspension.value.kind == "permanent")
    ensures o.Suspended? ==> o.until == reply.body.value.data.value.suspension.value.endDate
    ensures o.Suspended? ==> o.studentName == ShownName(reply.body.value.data.value.student.value.fullName)
    ensures o.Marked? ==> o.name == OrElse(StudentName(reply), UnknownStudentName) && o.name != ""
    ensures o.Failed? ==> o.message != ""
    // a suspended reply lacking its suspension or student: the TypeError's "Scan failed"
    ensures IsSuspendedReply(reply) && !o.Suspended? ==> o == Failed(ScanFailedMessage)
    // any other resolved reply that is not a success: the backend's message or "Scan failed"
    ensures reply.Resolved? && !o.Marked? && !IsSuspendedReply(reply) ==>
              o == Failed(OrElse(DataMessage(reply), ScanFailedMessage))
    ensures reply.Rejected? ==> o == Failed(OrElse(reply.message, ScanFailedMessage))
  {
    match reply
    case Rejected(m) => Failed(OrElse(m, ScanFailedMessage))
    case Resolved(body) =>
      if body.Some? && body.value.success == Some(false) && body.value.data.None? then
        // `res.data.data.message` of an absent `data`: TypeError
        Failed(ScanFailedMessage)
      else if IsSuspendedReply(reply) then
        var d := body.value.data.value;
        if d.suspension.None? || d.student.None? then
          Failed(ScanFailedMessage)
        else
          Suspended(ShownName(d.student.value.fullName), d.suspension.value.kind == "permanent", d.suspension.value.endDate)
      else if body.Some? && body.value.success == Some(true) then
        var name := if body.value.data.Some? && body.value.data.value.student.Some?
                    then OrElse(body.value.data.value.student.value.fullName, UnknownStudentName)
                    else UnknownStudentName;
        Marked(name)
      else
        var message := if body.Some? && body.value.data.Some? then body.value.data.value.message else None;
        Failed(OrElse(message, ScanFailedMessage))
  }

  /** A template literal shows an absent name as "undefined". */
  function ShownName(name: Option<string>): string {
    if name.Some? then name.value else "undefined"
  }

  /** The text put in `scanSuccess` (for Marked) or `scanError`. */
  function Describe(o: ScanOutcome, formatDate: int -> string): string {
    match o
    case Marked(name) => "Marked attendance for: " + name
    case Suspended(name, permanent, until) =>
      "Student " + name + " is " + (if permanent then "permanently" else "temporarily") + " suspended"
      + (if until.Some? then " until " + formatDate(until.value) else "") + "."
    case Failed(message) => message
  }

  /** The suspension message says which kind of suspension it is, and
      carries the formatted end date exactly when the reply has one. */
  lemma SuspensionMessage(name: string, permanent: bool, until: Option<int>, formatDate: int -> string)
    ensures var m := Describe(Suspended(name, permanent, until), formatDate);
            && (permanent ==> Contains(m, "permanently suspended"))
            && (!permanent ==> Contains(m, "temporarily suspended"))
            && (until.Some? ==> Contains(m, " until " + formatDate(until.value) + "."))
            && (until.None? ==> m[|m| - 11..] == " suspended.")
  {
    var m := Describe(Suspended(name, permanent, until), formatDate);
    var head := "Student " + name + " is ";
    var kind := (if permanent then "permanently" else "temporarily") + " suspended";
    var tail := (if until.Some? then " until " + formatDate(until.value) else "") + ".";
    assert m == head + kind + tail;
    assert kind == if permanent then "permanently suspended" else "temporarily suspended";
    assert (head + kind + tail)[|head|..|head| + |kind|] == kind;
    assert OccursAt(m, kind, |head|);
    assert (head + kind + tail)[|head + kind|..] == tail;
    if until.Some? {
      assert OccursAt(m, tail, |head + kind|);
    } else {
      assert m[|m| - 11..] == kind[|kind| - 10..] + tail;
    }
  }

  // ---------------------------------------------------------------------
  // The dedup list `recentlyScanned`
  // ---------------------------------------------------------------------

  /** A code of `recentlyScanned` together with the instant its 5000 ms
      removal timer fires. */
  datatype Recent = Recent(code: string, expiresAt: int)

  function Codes(recent: seq<Recent>): set<string> {
    set e | e in recent :: e.code
  }

  /** No code occurs twice in the list. */
  predicate DistinctCodes(recent: seq<Recent>) {
    recent == [] ||
    (recent[|recent| - 1].code !in Codes(recent[..|recent| - 1]) && DistinctCodes(recent[..|recent| - 1]))
  }

  /** Two entries with the same code in a list without repeated codes are
      the same entry. */
  lemma {:induction false} DistinctCodesUnique(recent: seq<Recent>, a: Recent, b: Recent)
    requires DistinctCodes(recent) && a in recent && b in recent && a.code == b.code
    ensures a == b
  {
    var n := |recent| - 1;
    var init := recent[..n];
    assert recent == init + [recent[n]];
    if a in init && b in init {
      DistinctCodesUnique(init, a, b);
    }
  }

  /** `prev.filter((c) => !drop.has(c))`: the entries whose code is not
      dropped (their order is `WithoutInOrder`). */
  function Without(recent: seq<Recent>, drop: set<string>): (r: seq<Recent>)
    ensures |r| == KeptCount(recent, drop)
    ensures forall e :: e in r <==> e in recent && e.code !in drop
    ensures Codes(r) == Codes(recent) - drop
    ensures DistinctCodes(recent) ==> DistinctCodes(r)
  {
    if recent == [] then []
    else
      var init := recent[..|recent| - 1];
      var last := recent[|recent| - 1];
      assert recent == init + [last];
      var w := Without(init, drop);
      if last.code in drop then w
      else
        assert (w + [last])[..|w|] == w;
        w + [last]
  }
  /** How many entries keep their place in the list. */
  function KeptCount(recent: seq<Recent>, drop: set<string>): nat {
    if recent == [] then 0
    else KeptCount(recent[..|recent| - 1], drop) + (if recent[|recent| - 1].code in drop then 0 else 1)
  }

  /** Every kept entry sits at the position given by the number of kept
      entries before it: the filter keeps each one, once, in order. */
  lemma {:induction false} WithoutInOrder(recent: seq<Recent>, drop: set<string>, i: nat)
    requires i < |recent| && recent[i].code !in drop
    ensures KeptCount(recent[..i], drop) < |Without(recent, drop)|
    ensures Without(recent, drop)[KeptCount(recent[..i], drop)] == recent[i]
  {
    var init := recent[..|recent| - 1];
    assert recent == init + [recent[|recent| - 1]];
    if i < |recent| - 1 {
      WithoutInOrder(init, drop, i);
      assert init[..i] == recent[..i];
    } else {
      assert recent[..i] == init;
    }
  }


  /** The codes whose removal timer is due at `now`. */
  function DueCodes(recent: seq<Recent>, now: int): set<string> {
    set e | e in recent && e.expiresAt <= now :: e.code
  }

  /** All removal timers due at `now` fire; each removes every occurrence of
      its code (`prev.filter((c) => c !== code)`). */
  function Expire(recent: seq<Recent>, now: int): seq<Recent> {
    Without(recent, DueCodes(recent, now))
  }

  /** When no code repeats, expiry keeps exactly the entries whose timer is
      not yet due. */
  lemma ExpireKeepsLive(recent: seq<Recent>, now: int, e: Recent)
    requires DistinctCodes(recent)
    ensures e in Expire(recent, now) <==> e in recent && e.expiresAt > now
  {
    if e in recent && e.expiresAt > now && e.code in DueCodes(recent, now) {
      var d :| d in recent && d.expiresAt <= now && d.code == e.code;
      DistinctCodesUnique(recent, d, e);
    }
  }

  // ---------------------------------------------------------------------
  // The intake state and its steps
  // ---------------------------------------------------------------------

  /** A snapshot of the scan state: `scanLockRef.current` (`locked`), the
      pending lock release (`lockFreeAt`), the code whose backend call is
      outstanding (`inFlight`), `cardCode`, `scanLoading`, `scanError`,
      `scanSuccess` and `recentlyScanned`. */
  datatype Intake = Intake(
    locked: bool,
    lockFreeAt: Option<int>,
    inFlight: Option<string>,
    cardCode: string,
    loading: bool,
    error: string,
    success: string,
    recent: seq<Recent>)

  const Initial := Intake(false, None, None, "", false, "", "", [])

  /** The structural invariant: the lock is never held without either an
      outstanding call or a scheduled release; the spinner is on exactly
      while a call is outstanding; a code in flight is not in the dedup
      list; no code is listed twice. */
  predicate Valid(s: Intake) {
    && (s.inFlight.Some? ==> s.locked && s.lockFreeAt.None? && s.inFlight.value !in Codes(s.recent))
    && (s.lockFreeAt.Some? ==> s.locked && s.inFlight.None?)
    && (s.locked ==> s.inFlight.Some? || s.lockFreeAt.Some?)
    && (s.loading <==> s.inFlight.Some?)
    && DistinctCodes(s.recent)
  }

  lemma InitialValid()
    ensures Valid(Initial) && !Initial.locked && Initial.recent == []
  {
  }

  /** What one call of `handleScan` did before (or instead of) awaiting. */
  datatype Submission = Ignored | Blank | Duplicate(code: string) | Sent(code: string)

  /** `handleScan` up to the backend call (lines 117-138). */
  function ScanStep(s: Intake): (r: (Intake, Submission))
    // the lock is held: nothing at all happens
    ensures s.locked ==> r == (s, Ignored)
    // a blank buffer: message, lock released at once, buffer kept
    ensures r.1 == Blank <==> !s.locked && IsBlank(s.cardCode)
    ensures r.1 == Blank ==> r.0 == s.(error := BlankCodeMessage, success := "")
    // otherwise the trimmed buffer is the code and the buffer is cleared
    ensures r.1.Duplicate? || r.1.Sent? ==>
              !s.locked && r.1.code == Trim(s.cardCode) && r.1.code != "" && r.0.cardCode == ""
    // a recently recorded code is refused without a call, lock released
    ensures r.1.Duplicate? <==> !s.locked && !IsBlank(s.cardCode) && Trim(s.cardCode) in Codes(s.recent)
    ensures r.1.Duplicate? ==> r.0 == s.(cardCode := "", loading := false, error := DuplicateMessage, success := "")
    // the only way to reach the backend
    ensures r.1.Sent? <==> !s.locked && !IsBlank(s.cardCode) && Trim(s.cardCode) !in Codes(s.recent)
    ensures r.1.Sent? ==> r.0 == s.(locked := true, inFlight := Some(r.1.code), cardCode := "",
                                    loading := true, error := "", success := "")
    ensures r.0.recent == s.recent
    ensures Valid(s) ==> Valid(r.0)
  {
    TrimEmptyIffBlank(s.cardCode);
    if s.locked then (s, Ignored)
    else
      var s1 := s.(locked := true, error := "", success := "");
      var code := Trim(s.cardCode);
      if code == "" then
        (s1.(error := BlankCodeMessage, locked := false), Blank)
      else
        var s2 := s1.(cardCode := "", loading := true);
        if code in Codes(s.recent) then
          (s2.(error := DuplicateMessage, loading := false, locked := false), Duplicate(code))
        else
          (s2.(inFlight := Some(code)), Sent(code))
  }

  /** `handleScan` after the backend call settles (lines 139-178), at clock
      `now`, on the tab `tab`; the second component says whether the daily
      summary is refetched. */
  function SettleStep(s: Intake, now: int, reply: ScanReply, tab: int, formatDate: int -> string): (r: (Intake, bool))
    requires s.inFlight.Some?
    // every outcome: spinner off, call no longer outstanding, lock released 200 ms later
    ensures r.0.inFlight == None && !r.0.loading && r.0.locked == s.locked && r.0.lockFreeAt == Some(now + LockCooldownMs)
    ensures r.0.cardCode == s.cardCode
    // only a success records the code, with its removal 5000 ms later
    ensures Classify(reply).Marked? ==>
              && r.0.recent == s.recent + [Recent(s.inFlight.value, now + DedupWindowMs)]
              && r.0.success == Describe(Classify(reply), formatDate)
              && r.0.error == s.error
    ensures !Classify(reply).Marked? ==>
              && r.0.recent == s.recent
              && r.0.error == Describe(Classify(reply), formatDate) && r.0.error != ""
              && r.0.success == s.success
    ensures r.1 <==> Classify(reply).Marked? && tab == 1
    ensures Valid(s) ==> Valid(r.0)
  {
    var code := s.inFlight.value;
    var outcome := Classify(reply);
    var s1 :=
      if outcome.Marked? then
        s.(success := Describe(outcome, formatDate), recent := s.recent + [Recent(code, now + DedupWindowMs)])
      else
        s.(error := Describe(outcome, formatDate));
    assert (s.recent + [Recent(code, now + DedupWindowMs)])[..|s.recent|] == s.recent;
    (s1.(loading := false, inFlight := None, lockFreeAt := Some(now + LockCooldownMs)), outcome.Marked? && tab == 1)
  }

  /** The clock reaches `now`: a due lock release frees the lock, and every
      due removal timer drops its code. */
  function TickStep(s: Intake, now: int): (r: Intake)
    ensures r.inFlight == s.inFlight && r.cardCode == s.cardCode && r.loading == s.loading
    ensures r.error == s.error && r.success == s.success
    ensures (s.lockFreeAt.Some? && s.lockFreeAt.value <= now) ==> !r.locked && r.lockFreeAt.None?
    ensures !(s.lockFreeAt.Some? && s.lockFreeAt.value <= now) ==> r.locked == s.locked && r.lockFreeAt == s.lockFreeAt
    ensures r.recent == Expire(s.recent, now)
    ensures Valid(s) ==> Valid(r)
  {
    var release := s.lockFreeAt.Some? && s.lockFreeAt.value <= now;
    s.(locked := if release then false else s.locked,
       lockFreeAt := if release then None else s.lockFreeAt,
       recent := Expire(s.recent, now))
  }

  /** The text field's `onChange`. */
  function InputStep(s: Intake, text: string): (r: Intake)
    ensures r == s.(cardCode := text)
    ensures Valid(s) ==> Valid(r)
  {
    s.(cardCode := text)
  }

  /** `handleKeyDown` (lines 180-182): Enter on a non-empty buffer scans. */
  function KeyDownStep(s: Intake, key: string): (r: (Intake, Option<Submission>))
    ensures key == "Enter" && s.cardCode != "" ==> r.1 == Some(ScanStep(s).1) && r.0 == ScanStep(s).0
    ensures !(key == "Enter" && s.cardCode != "") ==> r == (s, None)
  {
    if key == "Enter" && s.cardCode != "" then
      var (s1, sub) := ScanStep(s);
      (s1, Some(sub))
    else (s, None)
  }

  // ---------------------------------------------------------------------
  // Properties of runs
  // ---------------------------------------------------------------------

  /** Scans issued one after another, with typing in between but no reply
      and no clock step. */
  function Burst(s: Intake, texts: seq<string>): (Intake, seq<Submission>)
    decreases |texts|
  {
    if texts == [] then (s, [])
    else
      var (s1, sub) := ScanStep(InputStep(s, texts[0]));
      var (s2, subs) := Burst(s1, texts[1..]);
      (s2, [sub] + subs)
  }

  function SentCount(subs: seq<Submission>): nat {
    if subs == [] then 0 else (if subs[0].Sent? then 1 else 0) + SentCount(subs[1..])
  }

  /** Single flight: while a call is outstanding, every further scan is
      dropped and the state does not change. */
  lemma {:induction false} InFlightBurstIgnored(s: Intake, texts: seq<string>)
    requires s.inFlight.Some? && Valid(s)
    ensures SentCount(Burst(s, texts).1) == 0
    ensures Burst(s, texts).0 == s.(cardCode := if texts == [] then s.cardCode else texts[|texts| - 1])
    decreases |texts|
  {
    if texts != [] {
      var s1 := ScanStep(InputStep(s, texts[0])).0;
      assert s1 == s.(cardCode := texts[0]);
      InFlightBurstIgnored(s1, texts[1..]);
      if |texts| > 1 {
        assert texts[1..][|texts[1..]| - 1] == texts[|texts| - 1];
      }
    }
  }

  /** Single flight: of any burst of scans before a reply arrives, at most
      one reaches the backend. */
  lemma {:induction false} BurstSendsAtMostOnce(s: Intake, texts: seq<string>)
    requires Valid(s)
    ensures SentCount(Burst(s, texts).1) <= 1
    ensures s.inFlight.Some? ==> SentCount(Burst(s, texts).1) == 0
    decreases |texts|
  {
    if texts != [] {
      var (s1, sub) := ScanStep(InputStep(s, texts[0]));
      if s.inFlight.Some? {
        InFlightBurstIgnored(s, texts);
      } else if sub.Sent? {
        InFlightBurstIgnored(s1, texts[1..]);
      } else {
        BurstSendsAtMostOnce(s1, texts[1..]);
      }
    }
  }

  /** Scan code `text`, get the reply at `t`, then let the clock reach `t2`
      and scan `text2`. */
  function Rescan(s: Intake, text: string, t: int, reply: ScanReply, t2: int, text2: string, formatDate: int -> string): (Intake, Submission)
    requires ScanStep(InputStep(s, text)).1.Sent?
  {
    var s1 := ScanStep(InputStep(s, text)).0;
    var s2 := SettleStep(s1, t, reply, 0, formatDate).0;
    ScanStep(InputStep(TickStep(s2, t2), text2))
  }

  /** The dedup window: after a successful scan of a code, the same code
      (however padded) does not reach the backend again before 5000 ms. */
  lemma DedupBlocksWithinWindow(s: Intake, text: string, t: int, reply: ScanReply, t2: int, text2: string, formatDate: int -> string)
    requires Valid(s) && ScanStep(InputStep(s, text)).1.Sent?
    requires Classify(reply).Marked?
    requires t2 < t + DedupWindowMs && Trim(text2) == Trim(text)
    ensures !Rescan(s, text, t, reply, t2, text2, formatDate).1.Sent?
  {
    var code := Trim(text);
    var s1 := ScanStep(InputStep(s, text)).0;
    var s2 := SettleStep(s1, t, reply, 0, formatDate).0;
    var e := Recent(code, t + DedupWindowMs);
    assert e in s2.recent;
    ExpireKeepsLive(s2.recent, t2, e);
    assert code in Codes(TickStep(s2, t2).recent);
  }

  /** Once 5000 ms have passed since the successful scan, the same code
      reaches the backend again. */
  lemma DedupExpiresAfterWindow(s: Intake, text: string, t: int, reply: ScanReply, t2: int, text2: string, formatDate: int -> string)
    requires Valid(s) && ScanStep(InputStep(s, text)).1.Sent?
    requires Classify(reply).Marked?
    requires t2 >= t + DedupWindowMs && Trim(text2) == Trim(text)
    ensures Rescan(s, text, t, reply, t2, text2, formatDate).1 == Sent(Trim(text))
  {
    var code := Trim(text);
    var s1 := ScanStep(InputStep(s, text)).0;
    var s2 := SettleStep(s1, t, reply, 0, formatDate).0;
    assert code in DueCodes(s2.recent, t2) by {
      assert Recent(code, t + DedupWindowMs) in s2.recent;
    }
  }

  /** A scan that did not succeed leaves no dedup entry: once the 200 ms
      cooldown has passed, the same code reaches the backend again. */
  lemma FailedScanRetried(s: Intake, text: string, t: int, reply: ScanReply, t2: int, text2: string, formatDate: int -> string)
    requires Valid(s) && ScanStep(InputStep(s, text)).1.Sent?
    requires !Classify(reply).Marked?
    requires t2 >= t + LockCooldownMs && Trim(text2) == Trim(text)
    ensures Rescan(s, text, t, reply, t2, text2, formatDate).1 == Sent(Trim(text))
  {
    var s1 := ScanStep(InputStep(s, text)).0;
    var s2 := SettleStep(s1, t, reply, 0, formatDate).0;
    assert Trim(text) !in Codes(s2.recent);
    assert Codes(TickStep(s2, t2).recent) <= Codes(s2.recent);
  }

  /** Within the 200 ms cooldown after a reply, every scan is dropped. */
  lemma CooldownDropsScans(s: Intake, text: string, t: int, reply: ScanReply, t2: int, text2: string, formatDate: int -> string)
    requires ScanStep(InputStep(s, text)).1.Sent?
    requires t2 < t + LockCooldownMs
    ensures Rescan(s, text, t, reply, t2, text2, formatDate).1 == Ignored
  {
  }

  // ---------------------------------------------------------------------
  // The screen's scan state, updated in place
  // ---------------------------------------------------------------------

  class ScanIntake {
    var locked: bool
    var lockFreeAt: Option<int>
    var inFlight: Option<string>
    var cardCode: string
    var scanLoading: bool
    var scanError: string
    var scanSuccess: string
    var recentlyScanned: seq<Recent>
    /** `format(new Date(d), 'MMM dd, yyyy')` */
    const formatDate: int -> string

    function State(): Intake
      reads this
    {
      Intake(locked, lockFreeAt, inFlight, cardCode, scanLoading, scanError, scanSuccess, recentlyScanned)
    }

    constructor (formatDate: int -> string)
      ensures State() == Initial && Valid(State()) && this.formatDate == formatDate
    {
      locked, lockFreeAt, inFlight := false, None, None;
      cardCode, scanLoading, scanError, scanSuccess := "", false, "", "";
      recentlyScanned := [];
      this.formatDate := formatDate;
    }

    method OnCardCodeChange(text: string)
      modifies this
      ensures State() == InputStep(old(State()), text)
    {
      cardCode := text;
    }

    /** `handleScan` up to the awaited call; a `Sent(code)` result is the
        call `scanAttendance({ cardCode: code })`. */
    method HandleScan() returns (submission: Submission)
      modifies this
      ensures (State(), submission) == ScanStep(old(State()))
    {
      ghost var s0 := State();
      if locked {
        return Ignored;
      }
      locked := true;
      scanError := "";
      scanSuccess := "";
      var code := Trim(cardCode);
      if code == "" {
        scanError := BlankCodeMessage;
        locked := false;
        assert State() == s0.(error := BlankCodeMessage, success := "");
        return Blank;
      }
      cardCode := "";
      scanLoading := true;
      if code in Codes(recentlyScanned) {
        scanError := DuplicateMessage;
        scanLoading := false;
        locked := false;
        assert State() == s0.(cardCode := "", loading := false, error := DuplicateMessage, success := "");
        return Duplicate(code);
      }
      inFlight := Some(code);
      assert State() == s0.(locked := true, inFlight := Some(code), cardCode := "", loading := true, error := "", success := "");
      return Sent(code);
    }

    /** The rest of `handleScan`, once the call settles with `reply`. */
    method OnScanSettled(now: int, reply: ScanReply, tab: int) returns (refreshDaily: bool)
      requires inFlight.Some?
      modifies this
      ensures (State(), refreshDaily) == SettleStep(old(State()), now, reply, tab, formatDate)
    {
      var code := inFlight.value;
      var outcome := Classify(reply);
      refreshDaily := false;
      if outcome.Marked? {
        scanSuccess := Describe(outcome, formatDate);
        recentlyScanned := recentlyScanned + [Recent(code, now + DedupWindowMs)];
        refreshDaily := tab == 1;
      } else {
        scanError := Describe(outcome, formatDate);
      }
      scanLoading := false;
      inFlight := None;
      lockFreeAt := Some(now + LockCooldownMs);
    }

    /** The clock reaches `now`: due timers fire. */
    method OnClock(now: int)
      modifies this
      ensures State() == TickStep(old(State()), now)
    {
      if lockFreeAt.Some? && lockFreeAt.value <= now {
        locked := false;
        lockFreeAt := None;
      }
      var due := DueCodes(recentlyScanned, now);
      var kept := [];
      var i := 0;
      while i < |recentlyScanned|
        invariant 0 <= i <= |recentlyScanned|
        invariant kept == Without(recentlyScanned[..i], due)
      {
        assert recentlyScanned[..i + 1][..i] == recentlyScanned[..i];
        if recentlyScanned[i].code !in due {
          kept := kept + [recentlyScanned[i]];
        }
        i := i + 1;
      }
      assert recentlyScanned[..i] == recentlyScanned;
      recentlyScanned := kept;
    }

    method HandleKeyDown(key: string) returns (submission: Option<Submission>)
      modifies this
      ensures (State(), submission) == KeyDownStep(old(State()), key)
    {
      submission := None;
      if key == "Enter" && cardCode != "" {
        var sub := HandleScan();
        submission := Some(sub);
      }
    }
  }

  // ---------------------------------------------------------------------
  // Notify-all payloads and the group list
  // ---------------------------------------------------------------------

  /** One entry of `sendAttendanceNotification({ students })`. */
  datatype Notice = Notice(studentName: string, className: string, parentNumber: string, absentCount: Option<int>, date: string)

  /** A record of `dailyData.absentStudents` (`rec.student`). */
  datatype AbsentRecord = AbsentRecord(fullName: string, parentNumber: string)

  /** A row of `monthlyData.students`. */
  datatype MonthlyRow = MonthlyRow(fullName: string, parentNumber: string, absentDays: int)

  /** `handleNotifyAll` (lines 273-279): nothing is sent without daily data;
      otherwise one notice per absent student, in order, with the selected
      group and date. */
  function DailyNotices(daily: Option<seq<AbsentRecord>>, groupCode: string, date: string): (r: Option<seq<Notice>>)
    ensures r.Some? <==> daily.Some?
    ensures r.Some? ==> |r.value| == |daily.value|
    ensures r.Some? ==> forall i :: 0 <= i < |r.value| ==>
              r.value[i] == Notice(daily.value[i].fullName, groupCode, daily.value[i].parentNumber, None, date)
  {
    if daily.None? then None
    else Some(seq(|daily.value|, i requires 0 <= i < |daily.value| =>
                  Notice(daily.value[i].fullName, groupCode, daily.value[i].parentNumber, None, date)))
  }

  function MonthlyNotice(row: MonthlyRow, groupCode: string, today: string): Notice {
    Notice(row.fullName, groupCode, row.parentNumber, Some(row.absentDays), today)
  }

  /** `monthlyData.students.filter((s) => s.absentDays > 0).map(...)`
      (lines 321-329). */
  function MonthlyNotices(rows: seq<MonthlyRow>, groupCode: string, today: string): (r: seq<Notice>)
    ensures |r| == AbsentCount(rows) <= |rows|
    ensures forall n :: n in r ==> exists row :: row in rows && row.absentDays > 0 && n == MonthlyNotice(row, groupCode, today)
    ensures forall row :: row in rows && row.absentDays > 0 ==> MonthlyNotice(row, groupCode, today) in r
    ensures forall n :: n in r ==> n.absentCount.Some? && n.absentCount.value > 0
  {
    if rows == [] then []
    else
      var rest := MonthlyNotices(rows[1..], groupCode, today);
      assert forall row :: row in rows[1..] ==> row in rows;
      assert forall row :: row in rows ==> row == rows[0] || row in rows[1..];
      if rows[0].absentDays > 0 then [MonthlyNotice(rows[0], groupCode, today)] + rest else rest
  }

  /** How many rows have at least one absence. */
  function AbsentCount(rows: seq<MonthlyRow>): nat {
    if rows == [] then 0 else (if rows[0].absentDays > 0 then 1 else 0) + AbsentCount(rows[1..])
  }

  /** Each row with absences gets its notice at the position given by the
      number of such rows before it: one notice per row, in row order. */
  lemma {:induction false} MonthlyNoticesInOrder(rows: seq<MonthlyRow>, groupCode: string, today: string, i: nat)
    requires i < |rows| && rows[i].absentDays > 0
    ensures AbsentCount(rows[..i]) < |MonthlyNotices(rows, groupCode, today)|
    ensures MonthlyNotices(rows, groupCode, today)[AbsentCount(rows[..i])] == MonthlyNotice(rows[i], groupCode, today)
  {
    if i > 0 {
      MonthlyNoticesInOrder(rows[1..], groupCode, today, i - 1);
      assert rows[..i][1..] == rows[1..][..i - 1];
    }
  }

  /** `res.data.data.map((group) => group.code).filter(Boolean)` (line 191):
      the present, non-empty codes in order. */
  function GroupOptions(codes: seq<Option<string>>): (r: seq<string>)
    ensures |r| == TruthyCount(codes) <= |codes|
    ensures forall c :: c in r <==> Some(c) in codes && c != ""
  {
    if codes == [] then []
    else
      var rest := GroupOptions(codes[1..]);
      assert forall o :: o in codes <==> o == codes[0] || o in codes[1..];
      if Truthy(codes[0]) then [codes[0].value] + rest else rest
  }

  /** How many of the codes survive `filter(Boolean)`. */
  function TruthyCount(codes: seq<Option<string>>): nat {
    if codes == [] then 0 else (if Truthy(codes[0]) then 1 else 0) + TruthyCount(codes[1..])
  }

  /** Every kept code sits at the position given by the number of kept
      codes before it: the filter keeps each one, once, in order. */
  lemma {:induction false} GroupOptionsInOrder(codes: seq<Option<string>>, i: nat)
    requires i < |codes| && Truthy(codes[i])
    ensures TruthyCount(codes[..i]) < |GroupOptions(codes)|
    ensures GroupOptions(codes)[TruthyCount(codes[..i])] == codes[i].value
  {
    if i > 0 {
      GroupOptionsInOrder(codes[1..], i - 1);
      assert codes[..i][1..] == codes[1..][..i - 1];
    }
  }

  /** Lines 193-195: the group filter is set only when there is exactly one
      group. */
  function AutoSelectGroup(current: string, options: seq<string>): (r: string)
    ensures |options| == 1 ==> r == options[0]
    ensures |options| != 1 ==> r == current
    ensures r == current || r in options
  {
    if |options| == 1 then options[0] else current
  }

  /** After `fetchGroups`, the filter is replaced exactly when one code
      survives the filter, and then by that code; two entries with the same
      code are two options, so nothing is selected. */
  lemma AutoSelectIffOneGroup(current: string, codes: seq<Option<string>>)
    ensures var r := AutoSelectGroup(current, GroupOptions(codes));
            && (TruthyCount(codes) == 1 ==> exists i :: 0 <= i < |codes| && Truthy(codes[i]) && r == codes[i].value)
            && (TruthyCount(codes) != 1 ==> r == current)
  {
    if TruthyCount(codes) == 1 {
      var opts := GroupOptions(codes);
      assert opts[0] in opts;
      var i :| 0 <= i < |codes| && codes[i] == Some(opts[0]);
      assert Truthy(codes[i]);
    }
  }
}
