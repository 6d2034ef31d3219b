/** User accounts (accounts/models.py): the e-mail based user manager,
 *  the subscription properties of a user and the expiry of verification
 *  and password-reset tokens. Times are whole seconds. */
module Accounts {
  import opened Wrappers
  import opened Seqs
  import opened Texts

  const Day: int := 86400

  // ---------------------------------------------------------------------
  // The user manager

  /** Position of the last occurrence of `c` in `s`. */
  function LastIndexOf(s: string, c: char): (r: Option<nat>)
    ensures r.None? <==> c !in s
    ensures r.Some? ==> r.value < |s| && s[r.value] == c && forall j :: r.value < j < |s| ==> s[j] != c
  {
    if |s| == 0 then None
    else if s[|s| - 1] == c then Some(|s| - 1)
    else
      var r := LastIndexOf(s[..|s| - 1], c);
      assert s == s[..|s| - 1] + [s[|s| - 1]];
      r
  }

  /** BaseUserManager.normalize_email: the part after the last '@' of the
   *  stripped address is lower-cased; an address without '@' is kept as
   *  given. */
  function NormalizeEmail(email: string): (r: string)
    ensures '@' !in Strip(email) ==> r == email
    ensures '@' in Strip(email) ==> '@' in r && |r| == |Strip(email)|
    ensures '@' in Strip(email) ==>
              var t := Strip(email);
              var k := LastIndexOf(t, '@').value;
              r[..k] == t[..k] && r[k] == '@' && forall j :: k < j < |t| ==> r[j] == LowerChar(t[j])
  {
    var t := Strip(email);
    match LastIndexOf(t, '@')
    case None => email
    case Some(k) => LowerDomain(t, k)
  }

  /** The text with everything after position `k` (an '@') lower-cased. */
  function LowerDomain(t: string, k: nat): (r: string)
    requires k < |t| && t[k] == '@'
    ensures |r| == |t| && r[..k] == t[..k] && r[k] == '@'
    ensures forall j :: k < j < |t| ==> r[j] == LowerChar(t[j])
  {
    var tail := Lower(t[k + 1..]);
    var r := t[..k] + "@" + tail;
    assert forall j :: k < j < |t| ==> r[j] == tail[j - k - 1];
    r
  }

  /** Lower-casing introduces no '@' and keeps a space a space. */
  lemma {:induction false} LowerKeepsAt(s: string)
    ensures '@' in Lower(s) ==> '@' in s
    ensures |s| > 0 ==> IsSpace(Lower(s)[|s| - 1]) == IsSpace(s[|s| - 1])
  {
    if '@' in Lower(s) {
      var i :| 0 <= i < |Lower(s)| && Lower(s)[i] == '@';
      assert LowerChar(s[i]) == '@';
      assert s[i] == '@';
    }
  }

  /** A stripped text begins and ends with a non-space. */
  lemma {:induction false} StrippedEnds(s: string)
    ensures |Strip(s)| > 0 ==> !IsSpace(Strip(s)[0]) && !IsSpace(Strip(s)[|Strip(s)| - 1])
  {
    StripSlice(s);
  }

  /** In `pre + "@" + Lower(tail)` with no '@' in `tail`, the last '@' is
   *  the one added. */
  lemma {:induction false} LastAtAdded(pre: string, tail: string)
    requires '@' !in tail
    ensures LastIndexOf(pre + "@" + Lower(tail), '@') == Some(|pre|)
  {
    var r := pre + "@" + Lower(tail);
    LowerKeepsAt(tail);
    assert r[|pre|] == '@';
    forall j | |pre| < j < |r|
      ensures r[j] != '@'
    {
      var lt := Lower(tail);
      assert r[j] == lt[j - |pre| - 1];
      assert lt[j - |pre| - 1] in lt;
    }
    var k := LastIndexOf(r, '@');
    if k.value > |pre| {
      assert false;
    } else if k.value < |pre| {
      assert false;
    }
  }

  /** An address already in normal form: a part without surrounding space
   *  before the last '@' and a lower-cased part after it. */
  lemma {:induction false} NormalFormFixed(pre: string, tail: string)
    requires '@' !in tail
    requires |pre| > 0 ==> !IsSpace(pre[0])
    requires |tail| > 0 ==> !IsSpace(tail[|tail| - 1])
    ensures NormalizeEmail(pre + "@" + Lower(tail)) == pre + "@" + Lower(tail)
  {
    var r := pre + "@" + Lower(tail);
    assert Strip(r) == r by {
      LowerKeepsAt(tail);
      assert r[0] == (if |pre| == 0 then '@' else pre[0]);
      assert r[|r| - 1] == (if |tail| == 0 then '@' else Lower(tail)[|tail| - 1]);
      StripTrimmed(r);
    }
    LastAtAdded(pre, tail);
    assert r[..|pre|] == pre && r[|pre| + 1..] == Lower(tail);
    LowerIdempotent(tail);
  }

  /** Normalising an address twice changes nothing more. */
  lemma {:induction false} NormalizeEmailIdempotent(email: string)
    ensures NormalizeEmail(NormalizeEmail(email)) == NormalizeEmail(email)
  {
    var t := Strip(email);
    if '@' in t {
      var k := LastIndexOf(t, '@').value;
      var pre, tail := t[..k], t[k + 1..];
      assert NormalizeEmail(email) == pre + "@" + Lower(tail);
      assert (|pre| > 0 ==> !IsSpace(pre[0])) && (|tail| > 0 ==> !IsSpace(tail[|tail| - 1])) by {
        StrippedEnds(email);
        assert |pre| > 0 ==> pre[0] == t[0];
        assert |tail| > 0 ==> tail[|tail| - 1] == t[|t| - 1];
      }
      NormalFormFixed(pre, tail);
    }
  }

  /** The flags a caller may pass; None for a flag left out. */
  datatype ExtraFields = ExtraFields(isStaff: Option<bool>, isSuperuser: Option<bool>, isActive: Option<bool>)

  /** The stored user a manager call creates. A None password is Django's
   *  unusable password. */
  datatype NewUser = NewUser(email: string, password: Option<string>, isStaff: bool, isSuperuser: bool, isActive: bool)

  datatype Creation = Created(user: NewUser) | Refused(message: string)

  const EmailRequired := "The Email field must be set"
  const StaffRequired := "Superuser must have is_staff=True."
  const SuperuserRequired := "Superuser must have is_superuser=True."

  /** UserManager.create_user: an empty e-mail is refused; otherwise the
   *  user gets the normalised address, the password and the flags given
   *  (Django's defaults: not staff, not superuser, active). */
  function CreateUser(email: string, password: Option<string>, extra: ExtraFields): (r: Creation)
    ensures r.Refused? <==> email == ""
    ensures r.Refused? ==> r.message == EmailRequired
    ensures r.Created? ==>
      r.user.email == NormalizeEmail(email) && r.user.password == password
      && r.user.isStaff == extra.isStaff.GetOr(false)
      && r.user.isSuperuser == extra.isSuperuser.GetOr(false)
      && r.user.isActive == extra.isActive.GetOr(true)
  {
    if email == "" then Refused(EmailRequired)
    else Created(NewUser(NormalizeEmail(email), password,
      extra.isStaff.GetOr(false), extra.isSuperuser.GetOr(false), extra.isActive.GetOr(true)))
  }

  /** UserManager.create_superuser: is_staff, is_superuser and is_active
   *  default to true; an explicit false staff or superuser flag is refused
   *  before the e-mail is looked at. */
  function CreateSuperuser(email: string, password: Option<string>, extra: ExtraFields): (r: Creation)
    ensures r.Created? <==> email != "" && extra.isStaff != Some(false) && extra.isSuperuser != Some(false)
    ensures extra.isStaff == Some(false) ==> r == Refused(StaffRequired)
    ensures extra.isStaff != Some(false) && extra.isSuperuser == Some(false) ==> r == Refused(SuperuserRequired)
    ensures r.Created? ==> r.user.isStaff && r.user.isSuperuser && r.user.isActive == extra.isActive.GetOr(true)
  {
    if extra.isStaff.GetOr(true) != true then Refused(StaffRequired)
    else if extra.isSuperuser.GetOr(true) != true then Refused(SuperuserRequired)
    else CreateUser(email, password, ExtraFields(Some(true), Some(true), Some(extra.isActive.GetOr(true))))
  }

  /** A superuser is an ordinary user created with both flags set. */
  lemma {:induction false} SuperuserIsUserWithFlags(email: string, password: Option<string>, active: Option<bool>)
    ensures CreateSuperuser(email, password, ExtraFields(None, None, active))
         == CreateUser(email, password, ExtraFields(Some(true), Some(true), Some(active.GetOr(true))))
  {
  }

  // ---------------------------------------------------------------------
  // Subscriptions

  /** User.is_subscription_expired: false without an end date, otherwise
   *  whether now is past it. */
  function Expired(end: Option<int>, now: int): (r: bool)
    ensures r <==> end.Some? && now > end.value
  {
    match end
    case None => false
    case Some(e) => now > e
  }

  /** User.get_subscription_days_remaining: None without an end date,
   *  otherwise the whole days left (timedelta.days floors), never below 0. */
  function DaysRemaining(end: Option<int>, now: int): (r: Option<nat>)
    ensures r.None? <==> end.None?
    ensures r.Some? && end.value >= now ==> r.value * Day <= end.value - now < (r.value + 1) * Day
    ensures r.Some? && end.value < now ==> r.value == 0
  {
    match end
    case None => None
    case Some(e) =>
      var days := (e - now) / Day;
      Some(if days < 0 then 0 else days)
  }

  /** An expired subscription has no days left, and a subscription with
   *  days left is not expired. */
  lemma {:induction false} ExpiredHasNoDaysLeft(end: Option<int>, now: int)
    ensures Expired(end, now) ==> DaysRemaining(end, now) == Some(0)
    ensures DaysRemaining(end, now).Some? && DaysRemaining(end, now).value > 0 ==> !Expired(end, now)
  {
  }

  /** The end date extend_subscription sets: days added to the current end
   *  date, or counted from now when there is none. */
  function ExtendedEnd(end: Option<int>, days: int, now: int): (r: int)
    ensures end.Some? ==> r - end.value == days * Day
    ensures end.None? ==> r - now == days * Day
  {
    match end
    case None => now + days * Day
    case Some(e) => e + days * Day
  }

  /** Extending a running subscription by d days adds exactly d days to
   *  what remains. */
  lemma {:induction false} ExtendAddsDays(end: int, days: nat, now: int)
    requires end >= now
    ensures DaysRemaining(Some(ExtendedEnd(Some(end), days, now)), now).value
         == DaysRemaining(Some(end), now).value + days
  {
    var q := (end - now) / Day;
    assert (end - now + days * Day) / Day == q + days;
  }

  /** The extension counts from the old end date even after expiry: a
   *  subscription that ended more than d days ago is still expired after
   *  extending it by d days. */
  lemma {:induction false} ExtendExpiredStaysExpired(end: int, days: nat, now: int)
    requires end + days * Day < now
    ensures Expired(Some(ExtendedEnd(Some(end), days, now)), now)
  {
  }

  /** A subscription that never had an end date, extended by a positive
   *  number of days, is running now. */
  lemma {:induction false} ExtendFreshRuns(days: nat, now: int)
    requires days > 0
    ensures !Expired(Some(ExtendedEnd(None, days, now)), now)
    ensures DaysRemaining(Some(ExtendedEnd(None, days, now)), now) == Some(days)
  {
  }

  class User {
    var subscriptionEnd: Option<int>

    constructor (end: Option<int>)
      ensures subscriptionEnd == end
    {
      subscriptionEnd := end;
    }

    /** User.is_subscription_expired: an account without an end date never
     *  expires; one with an end date is expired strictly after it. */
    function IsSubscriptionExpired(now: int): (r: bool)
      reads this
      ensures r <==> subscriptionEnd.Some? && now > subscriptionEnd.value
    {
      Expired(subscriptionEnd, now)
    }

    /** User.get_subscription_days_remaining: None exactly without an end date;
     *  otherwise the whole days left, 0 once the end has passed. */
    function SubscriptionDaysRemaining(now: int): (r: Option<nat>)
      reads this
      ensures r.None? <==> subscriptionEnd.None?
      ensures r.Some? && subscriptionEnd.value >= now ==>
                r.value * Day <= subscriptionEnd.value - now < (r.value + 1) * Day
      ensures r.Some? && subscriptionEnd.value < now ==> r.value == 0
    {
      DaysRemaining(subscriptionEnd, now)
    }

    /** User.extend_subscription (30 days unless told otherwise). */
    method ExtendSubscription(days: int, now: int)
      modifies this`subscriptionEnd
      ensures subscriptionEnd == Some(ExtendedEnd(old(subscriptionEnd), days, now))
    {
      if subscriptionEnd.Some? {
        subscriptionEnd := Some(subscriptionEnd.value + days * Day);
      } else {
        subscriptionEnd := Some(now + days * Day);
      }
    }
  }

  const DefaultExtension := 30

  // ---------------------------------------------------------------------
  // Tokens

  datatype TokenKind = EmailVerification | PasswordReset

  datatype Token = Token(kind: TokenKind, user: nat, token: string, expiresAt: int, isUsed: bool)

  /** EmailVerification.is_expired and PasswordReset.is_expired: now is
   *  past the expiry time. Being used has no bearing on it. */
  function TokenExpired(t: Token, now: int): (r: bool)
    ensures r <==> now > t.expiresAt
  {
    now > t.expiresAt
  }

  /** A token that has expired stays expired. */
  lemma {:induction false} TokenExpiryMonotone(t: Token, now: int, later: int)
    requires now <= later && TokenExpired(t, now)
    ensures TokenExpired(t, later)
  {
  }
}
