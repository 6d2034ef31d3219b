/** The one-off backfill script (backfill_missing_supermarkets.py): every
 *  user who owns no supermarket gets one, named, addressed and given a
 *  phone number from the user's own fields. */
module Backfill {
  import opened Wrappers
  import opened Seqs
  import opened Texts

  const FallbackPhone := "+10000000000"
  const NoAddress := "Not provided"
  const Suffix := "'s Supermarket"
  const BackfillDescription := "Backfilled supermarket created after registration issue"

  /** The digits of a text in order: "".join(re.findall(r"\d+", text)). */
  function Digits(s: string): (r: string)
    ensures AllDigits(r) && |r| <= |s|
  {
    if |s| == 0 then []
    else (if IsDigit(s[0]) then [s[0]] else []) + Digits(s[1..])
  }

  /** Digits keep a text of digits whole. */
  lemma {:induction false} DigitsOfDigits(s: string)
    requires AllDigits(s)
    ensures Digits(s) == s
  {
    if |s| > 0 {
      DigitsOfDigits(s[1..]);
    }
  }

  /** sanitize_phone: "+" and the digits of the phone, or the fallback
   *  number when there is no phone or it has no digit. */
  function SanitizePhone(phone: Option<string>): (r: string)
    ensures phone.None? || Digits(phone.value) == [] ==> r == FallbackPhone
    ensures phone.Some? && Digits(phone.value) != [] ==> r == "+" + Digits(phone.value)
  {
    if phone.None? || phone.value == "" then FallbackPhone
    else
      var digits := Digits(phone.value);
      if digits == [] then FallbackPhone else "+" + digits
  }

  /** Every sanitised phone is "+" followed by at least one digit. */
  lemma {:induction false} PhoneShape(phone: Option<string>)
    ensures var r := SanitizePhone(phone); |r| >= 2 && r[0] == '+' && AllDigits(r[1..])
  {
    var r := SanitizePhone(phone);
    if r == FallbackPhone {
      assert r[1..] == "10000000000";
    } else {
      assert r[1..] == Digits(phone.value);
    }
  }

  /** Sanitising a sanitised phone changes nothing. */
  lemma {:induction false} SanitizeIdempotent(phone: Option<string>)
    ensures SanitizePhone(Some(SanitizePhone(phone))) == SanitizePhone(phone)
  {
    var r := SanitizePhone(phone);
    PhoneShape(phone);
    assert r == [r[0]] + r[1..];
    DigitsOfDigits(r[1..]);
    assert Digits(r) == Digits(r[1..]);
  }

  /** Position of the first occurrence of `c` in `s`. */
  function IndexOf(s: string, c: char): (r: Option<nat>)
    ensures r.None? <==> c !in s
    ensures r.Some? ==> r.value < |s| && s[r.value] == c && c !in s[..r.value]
  {
    if |s| == 0 then None
    else if s[0] == c then Some(0)
    else
      var r := IndexOf(s[1..], c);
      assert forall x :: x in s <==> x == s[0] || x in s[1..];
      if r.Some? then
        assert s[..r.value + 1] == [s[0]] + s[1..][..r.value];
        Some(r.value + 1)
      else None
  }

  /** email.split('@')[0]: the text before the first '@'. */
  function LocalPart(email: string): (r: string)
    ensures '@' !in r && IsPrefix(r, email)
    ensures '@' !in email ==> r == email
  {
    match IndexOf(email, '@')
    case None => email
    case Some(k) => email[..k]
  }

  /** supermarket_name_for: the stripped company name when there is one,
   *  else "<first name>'s Supermarket", else "<local part of the e-mail,
   *  or My>'s Supermarket". */
  function NameFor(companyName: Option<string>, firstName: Option<string>, email: Option<string>): (r: string)
    ensures Strip(companyName.GetOr("")) != "" ==> r == Strip(companyName.GetOr(""))
    ensures Strip(companyName.GetOr("")) == "" && Strip(firstName.GetOr("")) != "" ==>
      r == Strip(firstName.GetOr("")) + Suffix
    ensures Strip(companyName.GetOr("")) == "" && Strip(firstName.GetOr("")) == "" ==>
      r == (if Strip(LocalPart(email.GetOr(""))) == "" then "My" else Strip(LocalPart(email.GetOr("")))) + Suffix
  {
    var name := Strip(companyName.GetOr(""));
    if name != "" then name
    else
      var first := Strip(firstName.GetOr(""));
      if first != "" then first + Suffix
      else
        var local := Strip(LocalPart(email.GetOr("")));
        (if local == "" then "My" else local) + Suffix
  }

  /** A text with a non-space character does not strip to nothing. */
  lemma {:induction false} NotBlank(s: string, i: nat)
    requires i < |s| && !IsSpace(s[i])
    ensures Strip(s) != ""
  {
    StripSlice(s);
  }

  /** The name is never blank. */
  lemma {:induction false} NameNeverBlank(companyName: Option<string>, firstName: Option<string>, email: Option<string>)
    ensures Strip(NameFor(companyName, firstName, email)) != ""
  {
    if Strip(companyName.GetOr("")) != "" {
      StripIdempotent(companyName.GetOr(""));
    } else if Strip(firstName.GetOr("")) != "" {
      SuffixedNotBlank(Strip(firstName.GetOr("")));
    } else {
      var local := Strip(LocalPart(email.GetOr("")));
      SuffixedNotBlank(if local == "" then "My" else local);
    }
  }

  /** A name ending in "'s Supermarket" is not blank. */
  lemma {:induction false} SuffixedNotBlank(x: string)
    ensures Strip(x + Suffix) != ""
  {
    var r := x + Suffix;
    assert r[|r| - 1] == Suffix[|Suffix| - 1] == 't';
    NotBlank(r, |r| - 1);
  }

  /** supermarket_address_for: the stripped address, or "Not provided". */
  function AddressFor(address: Option<string>): (r: string)
    ensures Strip(address.GetOr("")) != "" ==> r == Strip(address.GetOr(""))
    ensures Strip(address.GetOr("")) == "" ==> r == NoAddress
  {
    var addr := Strip(address.GetOr(""));
    if addr != "" then addr else NoAddress
  }

  /** The address is never blank. */
  lemma {:induction false} AddressNeverBlank(address: Option<string>)
    ensures Strip(AddressFor(address)) != ""
  {
    if Strip(address.GetOr("")) != "" {
      StripIdempotent(address.GetOr(""));
    } else {
      NotBlank(NoAddress, 0);
    }
  }

  // ---------------------------------------------------------------------
  // The run

  datatype User = User(id: nat, email: string, companyName: Option<string>, firstName: Option<string>,
                       address: Option<string>, phone: Option<string>)

  datatype Supermarket = Supermarket(owner: nat, name: string, address: string, phone: string,
                                     email: string, description: string)

  /** The supermarket the script creates for a user. */
  function SupermarketFor(u: User): (r: Supermarket)
    ensures r.owner == u.id && r.email == u.email && r.description == BackfillDescription
    ensures Strip(r.name) != "" && Strip(r.address) != ""
    ensures |r.phone| >= 2 && r.phone[0] == '+' && AllDigits(r.phone[1..])
  {
    NameNeverBlank(u.companyName, u.firstName, Some(u.email));
    AddressNeverBlank(u.address);
    PhoneShape(u.phone);
    Supermarket(u.id, NameFor(u.companyName, u.firstName, Some(u.email)), AddressFor(u.address),
                SanitizePhone(u.phone), u.email, BackfillDescription)
  }

  /** The supermarkets created for `users`, in order, skipping those whose
   *  creation fails. */
  function Created(users: seq<User>, fails: nat -> bool): (r: seq<Supermarket>)
    ensures |r| <= |users|
  {
    if |users| == 0 then []
    else
      var prev := Created(users[..|users| - 1], fails);
      var u := users[|users| - 1];
      if fails(u.id) then prev else prev + [SupermarketFor(u)]
  }

  /** Every created supermarket is the one made for a user whose creation
   *  did not fail, so (by SupermarketFor) its name and address are not
   *  blank and its phone is "+" and digits. */
  lemma {:induction false} CreatedFromUsers(users: seq<User>, fails: nat -> bool)
    ensures forall sm :: sm in Created(users, fails) ==>
      exists u :: u in users && !fails(u.id) && sm == SupermarketFor(u)
  {
    if |users| > 0 {
      var init := users[..|users| - 1];
      var last := users[|users| - 1];
      CreatedFromUsers(init, fails);
      assert forall u :: u in init ==> u in users;
      assert last in users;
    }
  }

  /** The users with no supermarket of their own. */
  function MissingUsers(users: seq<User>, owners: set<nat>): (r: seq<User>)
    ensures forall u :: u in r <==> u in users && u.id !in owners
  {
    Filter(users, (u: User) => u.id !in owners)
  }

  /** main: one supermarket per user without one; a user whose creation
   *  raises is counted as skipped. The result is the created and skipped
   *  counts and the new supermarkets. */
  method Run(users: seq<User>, owners: set<nat>, fails: nat -> bool)
    returns (created: nat, skipped: nat, made: seq<Supermarket>)
    ensures made == Created(MissingUsers(users, owners), fails)
    ensures created == |made| && created + skipped == |MissingUsers(users, owners)|
  {
    var missing := MissingUsers(users, owners);
    created, skipped, made := 0, 0, [];
    var i := 0;
    while i < |missing|
      invariant 0 <= i <= |missing|
      invariant made == Created(missing[..i], fails)
      invariant created == |made| && created + skipped == i
    {
      var u := missing[i];
      assert missing[..i + 1][..i] == missing[..i];
      if fails(u.id) {
        skipped := skipped + 1;
      } else {
        made := made + [SupermarketFor(u)];
        created := created + 1;
      }
      i := i + 1;
    }
    assert missing[..i] == missing;
  }
}
