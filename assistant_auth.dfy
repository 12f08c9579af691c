/** The assistant card login (src/pages/AssistantAuth.jsx): scanner and
    manual input modes, completion detection on the scanner stream, the
    auto-submit guard, the login outcomes and the mode toggle. The
    `assistantCardLogin` call is an input (`LoginReply`); the 500 ms
    auto-submit timer is `FireAutoSubmit`, called when it elapses. */
module AssistantAuth {
  import opened Common
  import opened AuthStore
  import App

  /** A scanned card id is taken as complete at this length (line 69). */
  const CompleteLength := 6
  const LoginFailedMessage := "Login failed"
  const ProfilePath := "/assistant/profile"
  const AssistantRole := "assistant"

  /** `cardId`, `loading`, `error`, `scanMode`, `scanComplete` */
  datatype LoginForm = LoginForm(cardId: string, loading: bool, error: string, scanMode: bool, scanComplete: bool)

  const InitialForm := LoginForm("", false, "", true, false)

  /** What `assistantCardLogin({ cardId })` does: resolve with a token, or
      throw with `err.response?.data?.message`. */
  datatype LoginReply = Granted(token: string) | Refused(message: Option<string>)

  datatype LoginEffect = NotCalled | Authenticated(token: string) | Rejected

  /** `handleScannerInput` (lines 65-73): in scan mode the buffer takes the
      new value, and a value of at least six characters marks the scan
      complete; a shorter one leaves the flag as it was. */
  function ScannerInput(f: LoginForm, value: string): (r: LoginForm)
    ensures f.scanMode ==> r.cardId == value
    ensures f.scanMode && |value| >= CompleteLength ==> r.scanComplete
    ensures f.scanMode && |value| < CompleteLength ==> r.scanComplete == f.scanComplete
    ensures r.loading == f.loading && r.error == f.error && r.scanMode == f.scanMode
    ensures !f.scanMode ==> r == f
  {
    if f.scanMode then
      f.(cardId := value, scanComplete := if |value| >= CompleteLength then true else f.scanComplete)
    else f
  }

  /** The text field's `onChange` (line 117): the scanner handler in scan
      mode, a plain `setCardId` otherwise. */
  function Input(f: LoginForm, value: string): (r: LoginForm)
    ensures r.cardId == value
    ensures r.scanMode == f.scanMode && r.loading == f.loading && r.error == f.error
    ensures !f.scanMode ==> r.scanComplete == f.scanComplete
  {
    if f.scanMode then ScannerInput(f, value) else f.(cardId := value)
  }

  /** The effect of lines 34-41 schedules a login exactly when this holds. */
  predicate AutoSubmitDue(f: LoginForm) {
    f.scanComplete && |f.cardId| > 0
  }

  /** `handleLogin` (lines 43-62) with the reply of the backend. */
  function LoginStep(f: LoginForm, reply: LoginReply): (r: (LoginForm, LoginEffect))
    // an empty card id: no call, nothing changes
    ensures f.cardId == "" <==> r.1 == NotCalled
    ensures f.cardId == "" ==> r.0 == f
    // success: signed in as an assistant, form kept apart from the flags
    ensures reply.Granted? && f.cardId != "" ==>
              r.1 == Authenticated(reply.token) && r.0.error == "" && r.0.cardId == f.cardId
    // failure: a message, the buffer cleared in scan mode only
    ensures reply.Refused? && f.cardId != "" ==>
              && r.1 == Rejected
              && r.0.error == OrElse(reply.message, LoginFailedMessage) && r.0.error != ""
              && r.0.cardId == (if f.scanMode then "" else f.cardId)
    // every attempt ends with the flags down
    ensures f.cardId != "" ==> !r.0.loading && !r.0.scanComplete && !AutoSubmitDue(r.0)
    ensures r.0.scanMode == f.scanMode
  {
    if f.cardId == "" then (f, NotCalled)
    else
      var f1 := f.(error := "", loading := true);
      var (f2, effect) :=
        match reply
        case Granted(token) => (f1, Authenticated(token))
        case Refused(message) =>
          (f1.(error := OrElse(message, LoginFailedMessage), cardId := if f.scanMode then "" else f.cardId), Rejected);
      (f2.(loading := false, scanComplete := false), effect)
  }

  /** `toggleInputMode` as written (lines 75-78): flips the mode and clears
      the buffer and the error, but leaves `scanComplete` as it was. */
  function ToggleAsWritten(f: LoginForm): (r: LoginForm)
    ensures r.scanMode == !f.scanMode && r.cardId == "" && r.error == ""
    ensures r.scanComplete == f.scanComplete && r.loading == f.loading
  {
    f.(scanMode := !f.scanMode, cardId := "", error := "")
  }

  /** As written, a scan completed just before switching to manual entry
      makes the first manual keystroke auto-submit a partial card id. */
  lemma ManualEntryAutoSubmitsAsWritten()
    ensures var f := Input(ToggleAsWritten(Input(InitialForm, "A1B2C3")), "A");
            !f.scanMode && AutoSubmitDue(f) && f.cardId == "A"
  {
  }

  /** `toggleInputMode` with the completion flag also cleared. */
  function Toggle(f: LoginForm): (r: LoginForm)
    ensures r.scanMode == !f.scanMode && r.cardId == "" && r.error == ""
    ensures !r.scanComplete && !AutoSubmitDue(r) && r.loading == f.loading
  {
    ToggleAsWritten(f).(scanComplete := false)
  }

  /** Between events no login is in progress, and the scan can only be
      complete in scan mode. */
  predicate Consistent(f: LoginForm) {
    !f.loading && (f.scanComplete ==> f.scanMode)
  }

  /** With the corrected toggle every step keeps the form consistent, so
      an auto-submit is only ever scheduled in scan mode. */
  lemma StepsKeepConsistent(f: LoginForm, value: string, reply: LoginReply)
    requires Consistent(f)
    ensures Consistent(Input(f, value)) && Consistent(Toggle(f)) && Consistent(LoginStep(f, reply).0)
    ensures Consistent(InitialForm)
    ensures AutoSubmitDue(f) ==> f.scanMode
  {
  }

  /** A successful login navigates to a page the router shows to the
      signed-in assistant. */
  lemma LoginLandsOnProfile(token: string)
    requires token != ""
    ensures App.Resolve(ProfilePath, Some(token), Some(AssistantRole)) == App.Render(App.ProfilePage)
  {
  }

  class AssistantLogin {
    var cardId: string
    var loading: bool
    var error: string
    var scanMode: bool
    var scanComplete: bool
    /** the last `navigate` target */
    var location: Option<string>
    const store: Store

    function Form(): LoginForm
      reads this
    {
      LoginForm(cardId, loading, error, scanMode, scanComplete)
    }

    constructor (store: Store)
      ensures Form() == InitialForm && Consistent(Form()) && location == None && this.store == store
    {
      cardId, loading, error, scanMode, scanComplete := "", false, "", true, false;
      location := None;
      this.store := store;
    }

    method HandleScannerInput(value: string)
      modifies this
      ensures Form() == ScannerInput(old(Form()), value)
      ensures location == old(location)
    {
      if scanMode {
        cardId := value;
        if |value| >= CompleteLength {
          scanComplete := true;
        }
      }
    }

    method OnInputChange(value: string)
      modifies this
      ensures Form() == Input(old(Form()), value)
      ensures location == old(location)
    {
      if scanMode {
        HandleScannerInput(value);
      } else {
        cardId := value;
      }
    }

    /** `handleLogin`: on success the store is signed in as an assistant
        and the page navigates to the profile; otherwise neither changes. */
    method HandleLogin(reply: LoginReply) returns (effect: LoginEffect)
      modifies this, store
      ensures (Form(), effect) == LoginStep(old(Form()), reply)
      ensures effect.Authenticated? ==>
                && store.token == Some(effect.token) && store.role == Some(AssistantRole)
                && store.storage == old(store.storage)[TokenKey := effect.token][RoleKey := AssistantRole]
                && location == Some(ProfilePath)
      ensures !effect.Authenticated? ==>
                && store.token == old(store.token) && store.role == old(store.role)
                && store.storage == old(store.storage) && location == old(location)
    {
      if cardId == "" {
        return NotCalled;
      }
      error := "";
      loading := true;
      match reply {
        case Granted(token) =>
          store.SetAuth(token, AssistantRole);
          location := Some(ProfilePath);
          effect := Authenticated(token);
        case Refused(message) =>
          error := OrElse(message, LoginFailedMessage);
          if scanMode {
            cardId := "";
          }
          effect := Rejected;
      }
      loading := false;
      scanComplete := false;
    }

    /** The auto-submit timer elapses: it logs in only if the guard of the
        effect still holds. */
    method FireAutoSubmit(reply: LoginReply) returns (effect: LoginEffect)
      modifies this, store
      ensures !AutoSubmitDue(old(Form())) ==> effect == NotCalled && Form() == old(Form())
      ensures AutoSubmitDue(old(Form())) ==> (Form(), effect) == LoginStep(old(Form()), reply)
      ensures effect.Authenticated? ==>
                && store.token == Some(effect.token) && store.role == Some(AssistantRole)
                && store.storage == old(store.storage)[TokenKey := effect.token][RoleKey := AssistantRole]
                && location == Some(ProfilePath)
      ensures !effect.Authenticated? ==>
                && store.token == old(store.token) && store.role == old(store.role)
                && store.storage == old(store.storage) && location == old(location)
    {
      effect := NotCalled;
      if scanComplete && |cardId| > 0 {
        effect := HandleLogin(reply);
      }
    }

    /** `toggleInputMode` with the correction recorded for lines 75-78: the
        completion flag is cleared with the buffer. The page as written
        keeps it; `ToggleAsWritten` models that. */
    method ToggleInputMode()
      modifies this
      ensures Form() == Toggle(old(Form()))
      ensures location == old(location)
    {
      scanMode := !scanMode;
      cardId := "";
      error := "";
      scanComplete := false;
    }
  }
}
