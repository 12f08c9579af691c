/** The record-payment form and the late-payments list of
    src/pages/PaymentManagement.jsx: the default filter (the month before
    the current one), the payload `handleRecordPayment` sends, the form
    reset after a recorded payment and the fallback data of
    `fetchLatePayments`. The clock reading is passed in as month and year. */
module PaymentManagement {
  import opened Common

  /** `paymentForm`: the inputs hold text; the initial month and year are
      the clock's numbers written in decimal. */
  datatype PaymentForm = PaymentForm(cardCode: string, month: string, year: string, amount: string, payMethod: string)

  datatype FormField = CardCode | Month | Year | Amount | Method

  /** The body of `recordPayment`. */
  datatype PaymentPayload = PaymentPayload(cardCode: string, month: Num, year: Num, amount: Num, payMethod: string)

  /** The late-payments filter. */
  datatype LateFilter = LateFilter(month: int, year: int, groupCode: string)

  datatype LateStudent = LateStudent(studentId: string, fullName: string)

  datatype LateData = LateData(students: seq<LateStudent>, isLatePeriod: bool)

  const EmptyLateData := LateData([], false)

  // ---------------------------------------------------------------------
  // Default filter (lines 67-71)
  // ---------------------------------------------------------------------

  /** January falls back to December of the year before, any other month to
      the month before in the same year. */
  function DefaultLateFilter(currentMonth: int, currentYear: int): (f: LateFilter)
    ensures f.groupCode == ""
    ensures 1 <= currentMonth <= 12 ==> 1 <= f.month <= 12
    ensures f.year * 12 + f.month == currentYear * 12 + currentMonth - 1
  {
    LateFilter(if currentMonth == 1 then 12 else currentMonth - 1,
               if currentMonth == 1 then currentYear - 1 else currentYear,
               "")
  }

  /** The month after the default filter's month is the current month. */
  lemma DefaultFilterIsPreviousMonth(currentMonth: int, currentYear: int)
    requires 1 <= currentMonth <= 12
    ensures var f := DefaultLateFilter(currentMonth, currentYear);
            (if f.month == 12 then (1, f.year + 1) else (f.month + 1, f.year)) == (currentMonth, currentYear)
  {
  }

  // ---------------------------------------------------------------------
  // The record form (lines 53-59, 91-94, 101-124)
  // ---------------------------------------------------------------------

  function InitialForm(currentMonth: int, currentYear: int): PaymentForm {
    PaymentForm("", IntToString(currentMonth), IntToString(currentYear), "", "cash")
  }

  function FieldOf(f: PaymentForm, field: FormField): string {
    match field
    case CardCode => f.cardCode
    case Month => f.month
    case Year => f.year
    case Amount => f.amount
    case Method => f.payMethod
  }

  /** `handleFormChange`: `{ ...p, [name]: value }` */
  function WithField(f: PaymentForm, field: FormField, value: string): (r: PaymentForm)
    ensures FieldOf(r, field) == value
    ensures forall g :: g != field ==> FieldOf(r, g) == FieldOf(f, g)
  {
    match field
    case CardCode => f.(cardCode := value)
    case Month => f.(month := value)
    case Year => f.(year := value)
    case Amount => f.(amount := value)
    case Method => f.(payMethod := value)
  }

  /** `{ ...paymentForm, month: Number(..), year: Number(..), amount: Number(..) }` */
  function RecordPayload(f: PaymentForm): (p: PaymentPayload)
    ensures p.cardCode == f.cardCode && p.payMethod == f.payMethod
    ensures p.month == ToNumber(f.month) && p.year == ToNumber(f.year) && p.amount == ToNumber(f.amount)
  {
    PaymentPayload(f.cardCode, ToNumber(f.month), ToNumber(f.year), ToNumber(f.amount), f.payMethod)
  }

  /** The untouched form sends the current month and year as numbers, an
      amount of 0 (`Number('')`) and the cash method. */
  lemma InitialPayload(currentMonth: int, currentYear: int)
    ensures RecordPayload(InitialForm(currentMonth, currentYear))
            == PaymentPayload("", Finite(currentMonth), Finite(currentYear), Finite(0), "cash")
  {
    NumberOfString(currentMonth);
    NumberOfString(currentYear);
    assert TrimStart("") == "";
  }

  /** The form after a recorded payment: card code and amount cleared. */
  function AfterRecorded(f: PaymentForm): (r: PaymentForm)
    ensures r.cardCode == "" && r.amount == ""
    ensures r.month == f.month && r.year == f.year && r.payMethod == f.payMethod
  {
    f.(cardCode := "", amount := "")
  }

  /** After a recorded payment the next payment is for the same month, year
      and method, with no card and an amount of 0; clearing twice changes
      nothing more. */
  lemma NextPaymentKeepsPeriod(f: PaymentForm)
    ensures var p := RecordPayload(AfterRecorded(f));
            var q := RecordPayload(f);
            p.month == q.month && p.year == q.year && p.payMethod == q.payMethod
            && p.cardCode == "" && p.amount == Finite(0)
    ensures AfterRecorded(AfterRecorded(f)) == AfterRecorded(f)
  {
    assert TrimStart("") == "";
  }

  // ---------------------------------------------------------------------
  // The screen's state
  // ---------------------------------------------------------------------

  datatype RecordReply = Recorded | RecordFailed(message: Option<string>)

  /** What `getLatePayments` resolves with (`res.data.data`, possibly
      absent) or the message it throws. */
  datatype LateReply = LateLoaded(data: Option<LateData>) | LateFailed(message: Option<string>)

  const RecordedMessage := "Payment recorded successfully"

  /** `recordStatus` */
  datatype RecordStatus = RecordStatus(loading: bool, error: string, success: string)

  /** `latePayments` */
  datatype LatePayments = LatePayments(loading: bool, error: string, data: LateData)

  class PaymentScreen {
    var form: PaymentForm
    var recordStatus: RecordStatus
    var filter: LateFilter
    var latePayments: LatePayments

    /** The initial state for a clock reading `currentMonth`/`currentYear`. */
    constructor (currentMonth: int, currentYear: int)
      ensures form == InitialForm(currentMonth, currentYear)
      ensures filter == DefaultLateFilter(currentMonth, currentYear)
      ensures recordStatus == RecordStatus(false, "", "")
      ensures latePayments == LatePayments(false, "", EmptyLateData)
    {
      form := PaymentForm("", IntToString(currentMonth), IntToString(currentYear), "", "cash");
      recordStatus := RecordStatus(false, "", "");
      filter := LateFilter(if currentMonth == 1 then 12 else currentMonth - 1,
                           if currentMonth == 1 then currentYear - 1 else currentYear, "");
      latePayments := LatePayments(false, "", EmptyLateData);
    }

    method HandleFormChange(field: FormField, value: string)
      modifies this
      ensures form == WithField(old(form), field, value)
      ensures recordStatus == old(recordStatus) && filter == old(filter) && latePayments == old(latePayments)
    {
      form := WithField(form, field, value);
    }

    /** `handleRecordPayment`: the payload sent; on success the status
        shows the confirmation, the form is cleared and the late list is
        fetched again; on failure the form is kept. */
    method HandleRecordPayment(reply: RecordReply) returns (payload: PaymentPayload, refetch: bool)
      modifies this
      ensures payload == RecordPayload(old(form))
      ensures reply.Recorded? ==>
                form == AfterRecorded(old(form)) && recordStatus == RecordStatus(false, "", RecordedMessage) && refetch
      ensures reply.RecordFailed? ==>
                form == old(form) && !refetch
                && recordStatus == RecordStatus(false, OrElse(reply.message, "Failed to record payment"), "")
      ensures filter == old(filter) && latePayments == old(latePayments)
    {
      payload := RecordPayload(form);
      if reply.Recorded? {
        form, recordStatus, refetch := AfterRecorded(form), RecordStatus(false, "", RecordedMessage), true;
      } else {
        recordStatus, refetch := RecordStatus(false, OrElse(reply.message, "Failed to record payment"), ""), false;
      }
    }

    /** `fetchLatePayments` for the current filter: an absent or failed
        reply leaves the empty list outside the late period. */
    method FetchLatePayments(reply: LateReply) returns (requested: LateFilter)
      modifies this
      ensures requested == filter && filter == old(filter)
      ensures reply.LateLoaded? && reply.data.Some? ==> latePayments == LatePayments(false, "", reply.data.value)
      ensures reply.LateLoaded? && reply.data.None? ==> latePayments == LatePayments(false, "", EmptyLateData)
      ensures reply.LateFailed? ==>
                latePayments == LatePayments(false, OrElse(reply.message, "Failed to load late payments"), EmptyLateData)
      ensures form == old(form) && recordStatus == old(recordStatus)
    {
      latePayments := latePayments.(loading := true, error := "");
      requested := filter;
      match reply {
        case LateLoaded(data) =>
          latePayments := LatePayments(false, "", if data.Some? then data.value else EmptyLateData);
        case LateFailed(message) =>
          latePayments := LatePayments(false, OrElse(message, "Failed to load late payments"), EmptyLateData);
      }
    }
  }
}
