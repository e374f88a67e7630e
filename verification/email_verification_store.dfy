/** The verification helpers of src/utils/emailVerification.ts: the pending
    e-mail and the time of the last send kept in the browser's key-value
    storage, the one-minute resend cooldown read back from that storage, and
    the verification status derived from the signed-in user. The clock is a
    parameter (`now`, milliseconds); the storage is a map from keys to strings. */
module EmailVerificationStore {
  import opened Base
  import opened Text
  import opened Types

  type Store = map<string, string>

  const PendingEmailKey: string := "pendingVerificationEmail"
  const TimestampKey: string := "verificationTimestamp"

  /** Milliseconds between two sends. */
  const ResendDelay: int := 60000

  /** `storePendingVerificationEmail`: records the address and the send time,
      written as a decimal string. */
  function StorePending(st: Store, email: string, now: nat): (r: Store)
    ensures PendingEmailKey in r && r[PendingEmailKey] == email
    ensures TimestampKey in r && ParseInt(r[TimestampKey]) == Some(now)
    ensures forall k :: k != PendingEmailKey && k != TimestampKey ==> (k in r <==> k in st) && (k in st ==> r[k] == st[k])
  {
    ParseIntOfNatToString(now);
    st[PendingEmailKey := email][TimestampKey := NatToString(now)]
  }

  /** `getPendingVerificationEmail`: the stored address, `None` for `null`. */
  function GetPending(st: Store): (r: Option<string>)
    ensures r.Some? <==> PendingEmailKey in st
    ensures r.Some? ==> r.value == st[PendingEmailKey]
  {
    if PendingEmailKey in st then Some(st[PendingEmailKey]) else None
  }

  /** `clearVerificationData`: both keys gone, every other entry as it was. */
  function ClearData(st: Store): (r: Store)
    ensures PendingEmailKey !in r && TimestampKey !in r
    ensures forall k :: k != PendingEmailKey && k != TimestampKey ==> (k in r <==> k in st) && (k in st ==> r[k] == st[k])
  {
    st - {PendingEmailKey, TimestampKey}
  }

  /** The stored send time as `parseInt` reads it: `NoStamp` when the key is
      missing or empty (both falsy), `Unreadable` when `parseInt` gives `NaN`. */
  datatype Stamp = NoStamp | Unreadable | SentAt(ms: int)

  function ReadStamp(st: Store): (r: Stamp)
    ensures r.NoStamp? <==> TimestampKey !in st || st[TimestampKey] == ""
    ensures r.SentAt? ==> ParseInt(st[TimestampKey]) == Some(r.ms)
    ensures r.Unreadable? ==> ParseInt(st[TimestampKey]).None?
  {
    if TimestampKey !in st || st[TimestampKey] == "" then NoStamp
    else match ParseInt(st[TimestampKey])
      case None => Unreadable
      case Some(ms) => SentAt(ms)
  }

  /** `canResendVerification`: no recorded send, or at least a minute since
      it. `NaN >= 60000` is false, so an unreadable stamp blocks resending. */
  function CanResend(st: Store, now: int): (r: bool)
    ensures TimestampKey !in st || st[TimestampKey] == "" ==> r
    ensures TimestampKey in st && st[TimestampKey] != "" && ParseInt(st[TimestampKey]).None? ==> !r
    ensures TimestampKey in st && st[TimestampKey] != "" && ParseInt(st[TimestampKey]).Some? ==>
      (r <==> now - ParseInt(st[TimestampKey]).value >= ResendDelay)
  {
    match ReadStamp(st)
    case NoStamp => true
    case Unreadable => false
    case SentAt(last) => now - last >= ResendDelay
  }

  /** `Math.ceil(a / b)` for a positive divisor. Dafny's `/` rounds towards
      negative infinity for a positive divisor, so this is the ceiling. */
  function CeilDiv(a: int, b: int): (q: int)
    requires b > 0
    ensures (q - 1) * b < a <= q * b
  {
    -((-a) / b)
  }

  /** What `getResendCountdown` returns: whole seconds, or `NaN`. */
  datatype Countdown = Seconds(n: nat) | NotANumber

  /** `getResendCountdown`: the remaining cooldown rounded up to whole seconds,
      never below zero. */
  function ResendCountdown(st: Store, now: int): (r: Countdown)
    ensures ReadStamp(st).NoStamp? ==> r == Seconds(0)
    ensures ReadStamp(st).Unreadable? <==> r.NotANumber?
    ensures ReadStamp(st).SentAt? ==>
      var remaining := ResendDelay - (now - ReadStamp(st).ms);
      r.Seconds? && (remaining <= 0 ==> r.n == 0) && (remaining > 0 ==> (r.n - 1) * 1000 < remaining <= r.n * 1000)
  {
    match ReadStamp(st)
    case NoStamp => Seconds(0)
    case Unreadable => NotANumber
    case SentAt(last) =>
      var seconds := CeilDiv(ResendDelay - (now - last), 1000);
      Seconds(if seconds < 0 then 0 else seconds)
  }

  /** The two readings of the cooldown agree: the countdown is zero exactly
      when a resend is allowed. */
  lemma CountdownZeroIffCanResend(st: Store, now: int)
    ensures ResendCountdown(st, now) == Seconds(0) <==> CanResend(st, now)
  {
  }

  /** Read at two instants, the earlier reading of a zero countdown still
      allows a resend at the later one. */
  lemma CountdownZeroThenCanResendLater(st: Store, t1: int, t2: int)
    ensures t1 <= t2 && ResendCountdown(st, t1) == Seconds(0) ==> CanResend(st, t2)
  {
    CountdownZeroIffCanResend(st, t1);
  }

  /** Once allowed, a resend stays allowed as the clock moves on. */
  lemma ResendStaysAllowed(st: Store, t1: int, t2: int)
    requires t1 <= t2 && CanResend(st, t1)
    ensures CanResend(st, t2) && ResendCountdown(st, t2) == Seconds(0)
  {
    CountdownZeroIffCanResend(st, t2);
  }

  /** A send time not in the future leaves at most a minute to wait. */
  lemma CountdownAtMostAMinute(st: Store, now: int)
    requires ReadStamp(st).SentAt? && now >= ReadStamp(st).ms
    ensures ResendCountdown(st, now).Seconds? && ResendCountdown(st, now).n <= ResendDelay / 1000
  {
  }

  /** Storing then reading gives back the address. */
  lemma StoreThenGet(st: Store, email: string, now: nat)
    ensures GetPending(StorePending(st, email, now)) == Some(email)
  {
  }

  /** The stored send time reads back as the time that was stored. */
  lemma StoreRecordsStamp(st: Store, email: string, sentAt: nat)
    ensures ReadStamp(StorePending(st, email, sentAt)) == SentAt(sentAt)
  {
    var st' := StorePending(st, email, sentAt);
    assert st'[TimestampKey] == NatToString(sentAt);
  }

  /** After a store at `sentAt`, the cooldown runs from `sentAt`. */
  lemma StoreStartsCooldown(st: Store, email: string, sentAt: nat, now: int)
    ensures var st' := StorePending(st, email, sentAt);
      && (CanResend(st', now) <==> now - sentAt >= ResendDelay)
      && ResendCountdown(st', now).Seconds?
      && (now >= sentAt ==> ResendCountdown(st', now).n <= ResendDelay / 1000)
  {
    var st' := StorePending(st, email, sentAt);
    StoreRecordsStamp(st, email, sentAt);
    if now >= sentAt {
      CountdownAtMostAMinute(st', now);
    }
  }

  /** After clearing, a resend is allowed at once and nothing is left to wait. */
  lemma ClearAllowsResend(st: Store, now: int)
    ensures CanResend(ClearData(st), now) && ResendCountdown(ClearData(st), now) == Seconds(0)
    ensures GetPending(ClearData(st)).None?
  {
  }

  /** `getVerificationStatus`. */
  datatype Status = Status(isVerified: bool, isPending: bool, email: Option<string>)

  function VerificationStatus(user: Option<User>): (r: Status)
    ensures user.None? ==> r == Status(false, false, None)
    ensures user.Some? ==> r.isVerified == user.value.emailVerified
    ensures user.Some? ==> r.isPending != r.isVerified && r.email == Some(user.value.email)
  {
    match user
    case None => Status(false, false, None)
    case Some(u) => Status(u.emailVerified, !u.emailVerified, Some(u.email))
  }

  /** `isEmailVerificationRequired`: a user is signed in and not verified,
      which is exactly when the status says verification is pending. */
  predicate VerificationRequired(user: Option<User>): (r: bool)
    ensures r <==> VerificationStatus(user).isPending
  {
    user.Some? && !user.value.emailVerified
  }

  /** What the auth provider's resend call did. */
  datatype ResendCall = ResendAccepted | ResendRejected(message: string) | ResendThrew

  datatype SendResult = SendResult(success: bool, error: Option<string>)

  const SendFailedText: string := "Failed to send verification email"

  /** `sendVerificationEmail`: success exactly when the provider accepted;
      its message on a rejection, a fixed text on an exception. */
  function SendVerificationEmail(call: ResendCall): (r: SendResult)
    ensures r.success <==> call.ResendAccepted?
    ensures r.success ==> r.error.None?
    ensures call.ResendRejected? ==> r.error == Some(call.message)
    ensures call.ResendThrew? ==> r.error == Some(SendFailedText)
  {
    match call
    case ResendAccepted => SendResult(true, None)
    case ResendRejected(message) => SendResult(false, Some(message))
    case ResendThrew => SendResult(false, Some(SendFailedText))
  }
}
