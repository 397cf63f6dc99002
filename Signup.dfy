/**
 * The sign-up page (`src/pages/Signup.tsx`): the two steps (details, then the one-time code),
 * the answers each submission can get, the resend of the code, and the sign-in that a verified
 * code leads to, with its report of the guest-cart sync.
 */
module Signup {
  import opened Wrappers
  import opened Text
  import opened Domain
  import opened GuestCart
  import opened CartQueries
  import opened Effects
  import opened Auth
  import opened Login

  datatype Step = DetailsStep | CodeStep

  /** The code field accepts at most six characters, and Verify needs exactly six. */
  const CodeLength := 6

  /** Verify is enabled only when not busy and the code has six characters. */
  predicate VerifyEnabled(loading: bool, otp: string) {
    !loading && |otp| == CodeLength
  }

  /** The redirect of an already signed-in visitor: only on the details step, only while idle,
      and only to the state's return address (the query string is not read here). */
  function AutoRedirect(isAuthenticated: bool, loading: bool, step: Step, state: LocationState): Option<string> {
    if isAuthenticated && !loading && step == DetailsStep then Some(Destination("", state)) else None
  }

  /** What the sign-in after a verified code reports about the sync. */
  function SyncReport(synced: Option<bool>): seq<Effect> {
    match synced
    case Some(true) => [CartUpdated, Notify(SuccessToast, "Cart items synced successfully")]
    case Some(false) => [Notify(WarningToast, "Some cart items could not be synced")]
    case None => []
  }

  class SignupView {
    var step: Step
    var email: string
    var otp: string
    var testOtp: string
    var error: string
    var loading: bool
    var effects: seq<Effect>
    const auth: AuthStore
    const guest: GuestCartStore
    const cache: QueryCache

    constructor (auth: AuthStore, guest: GuestCartStore, cache: QueryCache)
      ensures step == DetailsStep && email == "" && otp == "" && testOtp == "" && error == "" && !loading
      ensures effects == [] && this.auth == auth && this.guest == guest && this.cache == cache
    {
      step := DetailsStep;
      email, otp, testOtp, error := "", "", "", "";
      loading := false;
      effects := [];
      this.auth := auth;
      this.guest := guest;
      this.cache := cache;
    }

    /** Typing in the code field, which keeps at most six characters. */
    method EnterCode(typed: string)
      modifies this
      ensures otp == (if |typed| <= CodeLength then typed else typed[..CodeLength])
      ensures |otp| <= CodeLength
      ensures step == old(step) && email == old(email) && error == old(error) && loading == old(loading)
      ensures testOtp == old(testOtp) && effects == old(effects)
    {
      otp := if |typed| <= CodeLength then typed else typed[..CodeLength];
    }

    /** `onSubmitSignup`: an accepted sign-up moves to the code step with the address and the
        code the server returned; otherwise the step stays and an error is shown. */
    method OnSubmitSignup(formEmail: string, answer: Result<AuthResponse, Thrown>)
      modifies this
      ensures !loading && effects == old(effects) && otp == old(otp)
      ensures answer.Success? && answer.value.success ==>
        step == CodeStep && email == formEmail && testOtp == answer.value.otp && error == ""
      ensures answer.Success? && !answer.value.success ==>
        step == old(step) && email == old(email) && testOtp == old(testOtp)
        && error == Or(answer.value.error, "Signup failed")
      ensures answer.Failure? ==>
        step == old(step) && email == old(email) && testOtp == old(testOtp)
        && error == ResponseErrorOr(answer.error, "Signup failed. Please try again.")
    {
      error := "";
      loading := true;
      match answer {
        case Success(r) =>
          if r.success {
            email := formEmail;
            testOtp := Or(r.otp, "");
            step := CodeStep;
          } else {
            error := Or(r.error, "Signup failed");
          }
        case Failure(e) =>
          error := ResponseErrorOr(e, "Signup failed. Please try again.");
      }
      loading := false;
    }

    /** `onSubmitOTP`: a verified code signs the user in exactly as a login does, then reports
        the sync; a refused or failed check shows an error and changes nothing else. */
    method OnSubmitCode(state: LocationState, answer: Result<AuthResponse, Thrown>,
                        catalog: Catalog, syncAnswer: Result<CartResponse, Thrown>)
      modifies this, auth, guest, cache
      ensures !loading && step == old(step) && email == old(email) && otp == old(otp)
      ensures answer.Success? && SignsIn(answer.value) ==>
        error == ""
        && auth.user == answer.value.user && auth.token == Some(answer.value.token) && auth.isAuthenticated
        && auth.Valid()
        && effects == old(effects) + [AuthSet(answer.value.token), Navigate(Destination("", state))]
             + (if |old(guest.Lines())| > 0 then [SyncSent(SyncItems(old(guest.Lines()), catalog))] else [])
             + SyncReport(if |old(guest.Lines())| > 0 then Some(syncAnswer.Success?) else None)
        && guest.stored == (if |old(guest.Lines())| > 0 && syncAnswer.Success? then None else old(guest.stored))
        && cache.events == old(cache.events) + SyncInvalidations(|old(guest.Lines())| > 0, syncAnswer)
      ensures answer.Success? && !SignsIn(answer.value) ==> error == Or(answer.value.error, "Invalid OTP")
      ensures answer.Failure? ==> error == ResponseErrorOr(answer.error, "OTP verification failed.")
      ensures !(answer.Success? && SignsIn(answer.value)) ==>
        effects == old(effects) && guest.stored == old(guest.stored) && cache.events == old(cache.events)
        && unchanged(auth)
      ensures cache.snapshot == old(cache.snapshot)
    {
      error := "";
      loading := true;
      match answer {
        case Success(r) =>
          if SignsIn(r) {
            var trace, synced := SignInAndSync(auth, guest, cache, r, Destination("", state), catalog, syncAnswer);
            effects := effects + trace + SyncReport(synced);
          } else {
            error := Or(r.error, "Invalid OTP");
          }
        case Failure(e) =>
          error := ResponseErrorOr(e, "OTP verification failed.");
      }
      loading := false;
    }

    /** `handleResendOTP`: a new code replaces the shown one; otherwise an error is shown. */
    method HandleResendCode(answer: Result<AuthResponse, Thrown>)
      modifies this
      ensures !loading && step == old(step) && email == old(email) && otp == old(otp) && effects == old(effects)
      ensures answer.Success? && answer.value.success ==> testOtp == answer.value.otp && error == ""
      ensures answer.Success? && !answer.value.success ==> testOtp == old(testOtp) && error == "Failed to resend OTP"
      ensures answer.Failure? ==>
        testOtp == old(testOtp) && error == ResponseErrorOr(answer.error, "Failed to resend OTP")
    {
      error := "";
      loading := true;
      match answer {
        case Success(r) =>
          if r.success {
            testOtp := Or(r.otp, "");
          } else {
            error := "Failed to resend OTP";
          }
        case Failure(e) =>
          error := ResponseErrorOr(e, "Failed to resend OTP");
      }
      loading := false;
    }
  }

  // ---------------------------------------------------------------------------------------

  /** A code that the field accepted can enable Verify only when it is complete. */
  lemma VerifyNeedsFullCode(loading: bool, typed: string)
    ensures var kept := if |typed| <= CodeLength then typed else typed[..CodeLength];
      VerifyEnabled(loading, kept) <==> !loading && |typed| >= CodeLength
  {
  }

  /** Once on the code step, the auto-redirect never fires, so a fresh sign-in is not cut short. */
  lemma NoRedirectOnCodeStep(isAuthenticated: bool, loading: bool, state: LocationState)
    ensures AutoRedirect(isAuthenticated, loading, CodeStep, state).None?
  {
  }

  /** Each sync outcome ends with a notice, and only a successful sync ticks the cart. */
  lemma SyncReportShape(synced: Option<bool>)
    ensures synced.Some? ==> |SyncReport(synced)| >= 1 && SyncReport(synced)[|SyncReport(synced)| - 1].Notify?
    ensures CartUpdated in SyncReport(synced) <==> synced == Some(true)
    ensures synced.None? ==> SyncReport(synced) == []
  {
  }
}
