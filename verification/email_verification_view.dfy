/** The verification-link page (src/components/Auth/EmailVerification.tsx):
    the outcome decided when the page mounts, from the authentication status,
    the link's `error` and `token` parameters and the provider's status after
    the settle wait; and the result of asking for another e-mail. */
module EmailVerificationView {
  import opened Base
  import opened Text
  import opened EmailVerificationStore

  datatype Status = Verifying | Success | Failed | Expired

  /** The page's status and message after mounting, and where it navigates. */
  datatype Mounted = Mounted(status: Status, message: string, navigateTo: Option<string>)

  /** What the provider reported after the settle wait. */
  datatype Settle = SettledSignedIn | SettledSignedOut | SettleThrew

  const DashboardRoute: string := "/dashboard"
  const ExpiredText: string := "Verification link has expired or is invalid. Please request a new one."
  const FailedPrefix: string := "Verification failed: "
  const NoTokenText: string := "No verification token found. Please check your email for the verification link."
  const NotSignedInText: string :=
    "Verification failed. The link may be invalid or expired. Please request a new verification email."
  const UnexpectedText: string := "An unexpected error occurred. Please try again."

  /** The state the page starts in. */
  function Initial(): (m: Mounted)
    ensures m.status == Verifying && m.message == "" && m.navigateTo.None?
  {
    Mounted(Verifying, "", None)
  }

  /** The mount effect, run to completion. */
  function OnMount(isAuthenticated: bool, errorParam: Option<string>, token: Option<string>, settle: Settle): (m: Mounted)
    ensures isAuthenticated ==> m == Initial().(navigateTo := Some(DashboardRoute))
    ensures !isAuthenticated && Truthy(errorParam) ==>
      && m.navigateTo.None?
      && (m.status == Expired <==> Contains(errorParam.value, "expired") || Contains(errorParam.value, "invalid"))
      && (m.status != Expired ==> m.status == Failed && m.message == FailedPrefix + errorParam.value)
    ensures !isAuthenticated && !Truthy(errorParam) && !Truthy(token) ==> m == Mounted(Failed, NoTokenText, None)
    ensures !isAuthenticated && !Truthy(errorParam) && Truthy(token) ==>
      && (m.status == Success <==> settle == SettledSignedIn)
      && (m.status == Success ==> m.navigateTo == Some(DashboardRoute) && m.message == "")
      && (m.status != Success ==> m.status == Failed && m.navigateTo.None?)
      && (settle == SettleThrew ==> m.message == UnexpectedText)
    ensures m.status != Verifying ==> !isAuthenticated
  {
    if isAuthenticated then Mounted(Verifying, "", Some(DashboardRoute))
    else if Truthy(errorParam) then
      var e := errorParam.value;
      if Contains(e, "expired") || Contains(e, "invalid") then Mounted(Expired, ExpiredText, None)
      else Mounted(Failed, FailedPrefix + e, None)
    else if !Truthy(token) then Mounted(Failed, NoTokenText, None)
    else
      match settle
      case SettledSignedIn => Mounted(Success, "", Some(DashboardRoute))
      case SettledSignedOut => Mounted(Failed, NotSignedInText, None)
      case SettleThrew => Mounted(Failed, UnexpectedText, None)
  }

  /** An error in the link decides the outcome whatever the token says. */
  lemma ErrorParamTakesPrecedence(errorParam: string, token1: Option<string>, token2: Option<string>,
                                  settle1: Settle, settle2: Settle)
    requires errorParam != ""
    ensures OnMount(false, Some(errorParam), token1, settle1) == OnMount(false, Some(errorParam), token2, settle2)
    ensures OnMount(false, Some(errorParam), token1, settle1).status in {Expired, Failed}
  {
  }

  const NoEmailText: string := "Please enter your email address to resend verification."
  const ResendFailedText: string := "Failed to resend verification email."

  /** The page's error message after a resend, and how many e-mails were
      requested. */
  datatype Resent = Resent(message: string, sendCalls: nat)

  /** `handleResendVerification`: needs a stored, non-empty address. */
  function HandleResend(st: Store, call: ResendCall): (r: Resent)
    ensures !Truthy(GetPending(st)) ==> r == Resent(NoEmailText, 0)
    ensures Truthy(GetPending(st)) ==> r.sendCalls == 1
    ensures Truthy(GetPending(st)) && call.ResendAccepted? ==> r.message == ""
    ensures Truthy(GetPending(st)) && !call.ResendAccepted? ==>
      r.message == OrElse(SendVerificationEmail(call).error, ResendFailedText) && r.message != ""
  {
    var email := GetPending(st);
    if !Truthy(email) then Resent(NoEmailText, 0)
    else
      var result := SendVerificationEmail(call);
      if result.success then Resent("", 1)
      else Resent(OrElse(result.error, ResendFailedText), 1)
  }

  /** The page can resend only between a store and a clear: after storing an
      address it sends, after clearing it asks for one. */
  lemma ResendFollowsStorage(st: Store, email: string, now: nat, call: ResendCall)
    requires email != ""
    ensures HandleResend(StorePending(st, email, now), call).sendCalls == 1
    ensures HandleResend(ClearData(st), call) == Resent(NoEmailText, 0)
  {
    StoreThenGet(st, email, now);
  }
}
