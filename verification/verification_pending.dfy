/** The "check your email" screen (src/components/Auth/VerificationPending.tsx):
    the resend button's gating and label, the polled cooldown, the resend
    handler shared by the button and the support link, and the way back to
    sign-in. Timers are replaced by explicit poll and processing-done steps. */
module VerificationPending {
  import opened Base
  import opened Text
  import opened EmailVerificationStore

  datatype PendingView = PendingView(
    isResending: bool,
    resendSuccess: bool,
    resendError: string,
    countdown: Countdown,
    canResend: bool,
    isProcessing: bool)

  function Initial(): (v: PendingView)
    ensures v.canResend && v.isProcessing && !v.isResending && !v.resendSuccess && v.resendError == ""
    ensures v.countdown == Seconds(0)
  {
    PendingView(false, false, "", Seconds(0), true, true)
  }

  /** `updateCountdown`, run on mount and every second. The two fields read the
      clock separately: the countdown at `t1`, then the permission at `t2`.
      They agree when both reads give the same instant; across a later second
      read, a zero countdown still comes with permission, but the converse can
      fail (see `PollCanDisagree`). */
  function Poll(v: PendingView, st: Store, t1: int, t2: int): (r: PendingView)
    ensures r.countdown == ResendCountdown(st, t1) && r.canResend == CanResend(st, t2)
    ensures t1 == t2 ==> (r.countdown == Seconds(0) <==> r.canResend)
    ensures t1 <= t2 && r.countdown == Seconds(0) ==> r.canResend
    ensures r == v.(countdown := r.countdown, canResend := r.canResend)
  {
    CountdownZeroIffCanResend(st, t1);
    CountdownZeroThenCanResendLater(st, t1, t2);
    v.(countdown := ResendCountdown(st, t1), canResend := CanResend(st, t2))
  }

  /** A send at time 0 polled at 59999 then 60000 shows one second left while
      the button is already enabled. */
  lemma PollCanDisagree(v: PendingView)
    ensures var st := StorePending(map[], "a@b", 0);
      var r := Poll(v, st, 59999, 60000);
      r.countdown == Seconds(1) && r.canResend
  {
    StoreRecordsStamp(map[], "a@b", 0);
  }

  /** The three-second processing timer firing. */
  function ProcessingDone(v: PendingView): (r: PendingView)
    ensures !r.isProcessing && r == v.(isProcessing := false)
  {
    v.(isProcessing := false)
  }

  const ResendFailedText: string := "Failed to resend verification email."

  /** `handleResendVerification`, run to completion: nothing at all while the
      cooldown runs; otherwise one e-mail request, then either success or the
      provider's error (a fixed text when that is empty). */
  function HandleResend(v: PendingView, call: ResendCall): (r: (PendingView, nat))
    ensures !v.canResend ==> r == (v, 0)
    ensures v.canResend ==> r.1 == 1 && !r.0.isResending
    ensures v.canResend ==> (r.0.resendSuccess <==> call.ResendAccepted?)
    ensures v.canResend ==> (r.0.resendError == "" <==> call.ResendAccepted?)
    ensures v.canResend && !call.ResendAccepted? ==> r.0.resendError == OrElse(SendVerificationEmail(call).error, ResendFailedText)
    ensures v.canResend ==> r.0 == v.(isResending := false, resendSuccess := r.0.resendSuccess, resendError := r.0.resendError)
  {
    if !v.canResend then (v, 0)
    else
      var result := SendVerificationEmail(call);
      if result.success then (v.(isResending := false, resendError := "", resendSuccess := true), 1)
      else (v.(isResending := false, resendError := OrElse(result.error, ResendFailedText), resendSuccess := false), 1)
  }

  predicate ButtonDisabled(v: PendingView) {
    v.isResending || !v.canResend || v.isProcessing
  }

  datatype Label = Sending | Processing | Wait(seconds: string) | ResendLabel

  /** The countdown as the template prints it. */
  function CountdownText(c: Countdown): (r: string)
    ensures c.Seconds? ==> ParseInt(r) == Some(c.n)
    ensures c.NotANumber? ==> r == "NaN"
  {
    match c
    case Seconds(n) => ParseIntOfNatToString(n); NatToString(n)
    case NotANumber => "NaN"
  }

  /** The button's label: sending, then processing, then the wait, then the
      invitation to resend. */
  function ButtonLabel(v: PendingView): (l: Label)
    ensures v.isResending ==> l == Sending
    ensures !v.isResending && v.isProcessing ==> l == Processing
    ensures !v.isResending && !v.isProcessing && !v.canResend ==> l == Wait(CountdownText(v.countdown))
    ensures l == ResendLabel <==> !v.isResending && !v.isProcessing && v.canResend
  {
    if v.isResending then Sending
    else if v.isProcessing then Processing
    else if !v.canResend then Wait(CountdownText(v.countdown))
    else ResendLabel
  }

  /** The button is enabled exactly when it invites a resend. */
  lemma EnabledIffResendLabel(v: PendingView)
    ensures !ButtonDisabled(v) <==> ButtonLabel(v) == ResendLabel
  {
  }

  /** The support link is only disabled while sending, but it calls the same
      handler, so during the cooldown it requests nothing either. */
  predicate SupportLinkDisabled(v: PendingView) {
    v.isResending
  }

  lemma SupportLinkCannotBypassCooldown(v: PendingView, st: Store, t1: int, t2: int, call: ResendCall)
    requires !CanResend(st, t2)
    ensures var polled := Poll(v, st, t1, t2);
      && (!polled.isResending ==> !SupportLinkDisabled(polled))
      && ButtonDisabled(polled)
      && HandleResend(polled, call) == (polled, 0)
  {
  }

  /** Where "back to sign in" leads. */
  datatype Exit = CallbackExit | NavigateTo(path: string)

  /** `handleBackToSignIn`: clears the verification data first, then leaves
      through the callback when one was given. */
  function BackToSignIn(st: Store, hasCallback: bool): (r: (Store, Exit))
    ensures r.0 == ClearData(st)
    ensures hasCallback <==> r.1 == CallbackExit
    ensures !hasCallback ==> r.1 == NavigateTo("/auth")
  {
    (ClearData(st), if hasCallback then CallbackExit else NavigateTo("/auth"))
  }

  /** Leaving resets the cooldown: a screen polled afterwards may resend at once. */
  lemma BackToSignInResetsCooldown(v: PendingView, st: Store, hasCallback: bool, t1: int, t2: int)
    ensures var polled := Poll(v, BackToSignIn(st, hasCallback).0, t1, t2);
      polled.canResend && polled.countdown == Seconds(0)
  {
    ClearAllowsResend(st, t1);
    ClearAllowsResend(st, t2);
  }
}
