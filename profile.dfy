/** The profile page (`Profile`): the e-mail mask shown to the user, and the
    edit form whose Save button follows the `isModified` flag. */
module Profile {
  import opened Common
  import opened UserController

  function Max(a: int, b: int): int {
    if a >= b then a else b
  }

  /** `'*'.repeat(n)`. */
  function Stars(n: nat): (s: string)
    ensures |s| == n
    ensures forall i :: 0 <= i < n ==> s[i] == '*'
  {
    seq(n, i => '*')
  }

  /** `maskEmail`: the first two pieces of `email.split('@')` are the name and
      the domain (`MaskEmailPieces`). When either is empty (or missing) the
      address is shown as it is. Otherwise the name keeps its first and last
      characters around `max(len − 2, 1)` stars, so it is max(len, 3)
      characters long, and '@' and the domain follow. */
  function MaskEmail(email: string): (r: string)
    ensures var i := IndexOf(email, '@'); var domain := DomainOf(email);
      && (i <= 0 || domain == "" ==> r == email)
      && (i > 0 && domain != "" ==>
            && |r| == Max(i, 3) + 1 + |domain|
            && r[0] == email[0] && r[Max(i, 3) - 1] == email[i - 1]
            && (forall k :: 0 < k < Max(i, 3) - 1 ==> r[k] == '*')
            && r[Max(i, 3)] == '@' && r[Max(i, 3) + 1..] == domain)
  {
    MaskEmailPieces(email);
    var parts := Split(email, '@');
    var name := parts[0];
    var domain := if |parts| >= 2 then parts[1] else "";
    if name == "" || domain == "" then email
    else [name[0]] + Stars(Max(|name| - 2, 1)) + [name[|name| - 1]] + "@" + domain
  }

  /** The text after the first '@' up to the next '@' (or the end); empty
      when there is no '@'. */
  function DomainOf(email: string): string {
    var i := IndexOf(email, '@');
    if i < 0 then ""
    else
      var rest := email[i + 1..];
      var j := IndexOf(rest, '@');
      if j < 0 then rest else rest[..j]
  }

  /** The two pieces `maskEmail` reads, in terms of the first two '@'. */
  lemma MaskEmailPieces(email: string)
    ensures var parts := Split(email, '@'); var i := IndexOf(email, '@');
      && parts[0] == (if i < 0 then email else email[..i])
      && (if |parts| >= 2 then parts[1] else "") == DomainOf(email)
  {
    FirstPieceBeforeIndex(email, '@');
    if IndexOf(email, '@') >= 0 {
      SecondPieceIsDomain(email);
    } else {
      SplitWithoutSeparator(email, '@');
    }
  }

  /** With an '@', the second piece is the text after the first '@' up to
      the next one. */
  lemma SecondPieceIsDomain(email: string)
    requires IndexOf(email, '@') >= 0
    ensures |Split(email, '@')| >= 2 && Split(email, '@')[1] == DomainOf(email)
  {
    var i := IndexOf(email, '@');
    var rest := email[i + 1..];
    var j := IndexOf(rest, '@');
    assert DomainOf(email) == if j < 0 then rest else rest[..j];
    FirstPieceBeforeIndex(rest, '@');
    SecondPieceAfterFirstAt(email);
  }

  /** With an '@', the second piece is the first piece of the text after the
      first '@'. */
  lemma SecondPieceAfterFirstAt(email: string)
    requires IndexOf(email, '@') >= 0
    ensures |Split(email, '@')| >= 2
    ensures Split(email, '@')[1] == Split(email[IndexOf(email, '@') + 1..], '@')[0]
  {
    var i := IndexOf(email, '@');
    var tail := Split(email[i + 1..], '@');
    FirstPieceBeforeIndex(email, '@');
    var parts := Split(email, '@');
    assert parts == [email[..i]] + tail;
    assert parts[1] == tail[0];
  }

  // ---------------------------------------------------------------------------
  // The edit form

  /** The three editable fields of the form. */
  datatype Contact = Contact(name: string, email: string, mobile: string)

  datatype Field = Name | Email | Mobile

  function WithField(c: Contact, f: Field, value: string): (r: Contact)
    ensures f == Name ==> r == c.(name := value)
    ensures f == Email ==> r == c.(email := value)
    ensures f == Mobile ==> r == c.(mobile := value)
  {
    match f
    case Name => c.(name := value)
    case Email => c.(email := value)
    case Mobile => c.(mobile := value)
  }

  class ProfileForm {
    var userData: Contact
    var initialUserData: Contact
    var isModified: bool
    var loading: bool

    /** `isModified` says whether the form differs from its snapshot. */
    predicate Tracks()
      reads this
    {
      isModified <==> userData != initialUserData
    }

    predicate SaveEnabled()
      reads this
    {
      isModified && !loading
    }

    constructor(user: Contact)
      ensures userData == user && initialUserData == user && !isModified && !loading
      ensures Tracks() && !SaveEnabled()
    {
      userData := user;
      initialUserData := user;
      isModified := false;
      loading := false;
    }

    /** `handleOnChange`: the field changes and `isModified` is recomputed
        against the snapshot, so typing the original values back clears it. */
    method OnChange(f: Field, value: string)
      modifies this`userData, this`isModified
      ensures userData == WithField(old(userData), f, value)
      ensures Tracks()
    {
      var updated := WithField(userData, f, value);
      isModified := updated.name != initialUserData.name
                    || updated.email != initialUserData.email
                    || updated.mobile != initialUserData.mobile;
      userData := updated;
    }

    /** The effect on `[user]`: both the form and the snapshot take the new
        record, but `isModified` keeps its value, so after a save the form
        equals its snapshot while Save stays enabled. */
    method Resync(user: Contact)
      modifies this`userData, this`initialUserData
      ensures userData == user && initialUserData == user
      ensures Tracks() <==> !isModified
    {
      userData := user;
      initialUserData := user;
    }

    /** `handleSubmit`: the body sent is the form as it is; loading is cleared
        on every path. */
    method Submit() returns (body: Contact)
      modifies this`loading
      ensures body == userData && !loading
    {
      loading := true;
      body := userData;
      loading := false;
    }
  }

  /** The body Save sends reaches `updateUserDetails` as name, e-mail and
      mobile with no password: each filled field replaces the stored one, a
      cleared field keeps it, the password and everything else stay, and the
      reply is a success. */
  lemma SubmittedFormUpdatesUser(body: Contact, users: seq<User>, userId: ObjectId, hashed: string)
    requires FindById(users, userId).Some?
    ensures var a := UpdateDetailsIn(users, userId, body.name, body.email, body.mobile, "", hashed);
      var i := FindById(users, userId).value;
      && a.0 == Success(Done) && |a.1| == |users|
      && a.1[i].name == (if body.name != "" then body.name else users[i].name)
      && a.1[i].email == (if body.email != "" then body.email else users[i].email)
      && a.1[i].mobile == (if body.mobile != "" then body.mobile else users[i].mobile)
      && a.1[i].(name := users[i].name, email := users[i].email, mobile := users[i].mobile) == users[i]
      && forall j :: 0 <= j < |users| && j != i ==> a.1[j] == users[j]
  {
  }
}
