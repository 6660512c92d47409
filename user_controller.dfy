/** The account handlers: registration with an e-mail OTP, OTP verification,
    login, profile update, and the forgot-password OTP check and reset.
    Hashing, password comparison, token signing, OTP generation and the clock
    are parameters; the user collection is the state of `UserStore`. */
module UserController {
  import opened Common

  /** A user document, with "" for an unset string field. */
  datatype User = User(
    id: ObjectId,
    name: string,
    email: string,
    password: string,
    mobile: string,
    status: string,
    role: string,
    verifyEmail: bool,
    isTemp: bool,
    emailOtp: Option<string>,
    emailExpiry: Option<Time>,
    forgotOtp: Option<string>,
    /** An ISO-8601 date string, as stored by the forgot-password handler. */
    forgotExpiry: Option<string>,
    refreshToken: string,
    lastLoginDate: Option<Time>)

  /** The reply data of a handler that sends none. */
  datatype Done = Done

  /** `findOne({ email })`: the position of the first user with that e-mail. */
  function FindByEmail(users: seq<User>, email: string): (r: Option<nat>)
    ensures r.Some? ==> r.value < |users| && users[r.value].email == email
    ensures r.Some? ==> forall j :: 0 <= j < r.value ==> users[j].email != email
    ensures r.None? <==> forall j :: 0 <= j < |users| ==> users[j].email != email
    decreases |users|
  {
    if |users| == 0 then None
    else if users[0].email == email then Some(0)
    else match FindByEmail(users[1..], email)
      case None => None
      case Some(k) => Some(k + 1)
  }

  /** `findById(id)`: the position of the user with that id. */
  function FindById(users: seq<User>, id: ObjectId): (r: Option<nat>)
    ensures r.Some? ==> r.value < |users| && users[r.value].id == id
    ensures r.Some? ==> forall j :: 0 <= j < r.value ==> users[j].id != id
    ensures r.None? <==> forall j :: 0 <= j < |users| ==> users[j].id != id
    decreases |users|
  {
    if |users| == 0 then None
    else if users[0].id == id then Some(0)
    else match FindById(users[1..], id)
      case None => None
      case Some(k) => Some(k + 1)
  }

  /** The sequence without its element at `i`. */
  function RemoveAt<T>(s: seq<T>, i: nat): (r: seq<T>)
    requires i < |s|
    ensures |r| == |s| - 1
    ensures forall j :: 0 <= j < i ==> r[j] == s[j]
    ensures forall j :: i <= j < |r| ==> r[j] == s[j + 1]
  {
    s[..i] + s[i + 1..]
  }

  // ---------------------------------------------------------------------------
  // Registration and e-mail OTP

  /** How long an e-mail OTP stays valid: 5 minutes, in milliseconds. */
  const OtpLifetime: nat := 5 * 60 * 1000

  /** The temporary user `registerUserController` saves: the hashed password,
      the OTP and its expiry, `is_temp` set; the remaining fields take the user
      schema's defaults (status "Active", role "USER", e-mail not verified). */
  function TempUser(id: ObjectId, name: string, email: string, hashed: string, otp: string, now: Time): User {
    User(id, name, email, hashed, "", "Active", "USER", false, true, Some(otp), Some(now + OtpLifetime),
         None, None, "", None)
  }

  /** `registerUserController`: `freshId` is the id the new document receives,
      `hashed` the bcrypt hash of `password`, `otp` the generated code. */
  function RegisterIn(users: seq<User>, freshId: ObjectId, name: string, email: string, password: string,
                      hashed: string, otp: string, now: Time): (a: (Outcome<ObjectId>, seq<User>))
    ensures (name == "" || email == "" || password == "") ==>
              a == (Failure(400, "Provide email, name, password"), users)
    ensures name != "" && email != "" && password != "" && (exists j :: 0 <= j < |users| && users[j].email == email) ==>
              a == (Failure(200, "Already registered email"), users)
    ensures a.0.Success? <==> name != "" && email != "" && password != ""
                              && forall j :: 0 <= j < |users| ==> users[j].email != email
    ensures a.0.Success? ==> && a.0.data == freshId
                             && a.1 == users + [TempUser(freshId, name, email, hashed, otp, now)]
                             && a.1[|users|].isTemp && a.1[|users|].emailOtp == Some(otp)
                             && a.1[|users|].emailExpiry == Some(now + 300000)
  {
    if name == "" || email == "" || password == "" then (Failure(400, "Provide email, name, password"), users)
    else if FindByEmail(users, email).Some? then (Failure(200, "Already registered email"), users)
    else (Success(freshId), users + [TempUser(freshId, name, email, hashed, otp, now)])
  }

  /** `email_verification_expiry` as `<` sees it: an unset expiry is 0. */
  function ExpiryMs(e: Option<Time>): Time {
    e.GetOr(0)
  }

  /** `verifyOtpSentController`: `userId` is None when the body has none. */
  function VerifyOtpIn(users: seq<User>, userId: Option<ObjectId>, otp: string, now: Time)
    : (a: (Outcome<Done>, seq<User>))
    ensures (userId.None? || otp == "") ==> a == (Failure(400, "Provide userId and OTP"), users)
    ensures userId.Some? && otp != "" && FindById(users, userId.value).None? ==>
              a == (Failure(400, "User not found"), users)
    ensures userId.Some? && otp != "" && FindById(users, userId.value).Some? ==>
              var i := FindById(users, userId.value).value; var u := users[i];
              && (!u.isTemp ==> a == (Failure(400, "User already verified"), users))
              && (u.isTemp && ExpiryMs(u.emailExpiry) < now ==> a == (Failure(400, "OTP has expired"), RemoveAt(users, i)))
              && (u.isTemp && ExpiryMs(u.emailExpiry) >= now && u.emailOtp != Some(otp) ==>
                    a == (Failure(400, "Invalid OTP"), users))
              && (a.0.Success? <==> u.isTemp && ExpiryMs(u.emailExpiry) >= now && u.emailOtp == Some(otp))
              && (a.0.Success? ==> a.1 == users[i := u.(verifyEmail := true, emailOtp := None, emailExpiry := None,
                                                        isTemp := false)])
  {
    if userId.None? || otp == "" then (Failure(400, "Provide userId and OTP"), users)
    else match FindById(users, userId.value)
      case None => (Failure(400, "User not found"), users)
      case Some(i) =>
        var u := users[i];
        if !u.isTemp then (Failure(400, "User already verified"), users)
        else if ExpiryMs(u.emailExpiry) < now then (Failure(400, "OTP has expired"), RemoveAt(users, i))
        else if u.emailOtp != Some(otp) then (Failure(400, "Invalid OTP"), users)
        else (Success(Done), users[i := u.(verifyEmail := true, emailOtp := None, emailExpiry := None, isTemp := false)])
  }

  /** Distinct users have distinct ids. */
  ghost predicate DistinctIds(users: seq<User>) {
    forall i, j :: 0 <= i < j < |users| ==> users[i].id != users[j].id
  }

  /** A fresh registration verified with its own code before it expires
      succeeds, and verifying it once more reports it as already verified. */
  lemma {:induction false} RegisterThenVerify(users: seq<User>, freshId: ObjectId, name: string, email: string,
                                              password: string, hashed: string, otp: string, now: Time, later: Time)
    requires forall j :: 0 <= j < |users| ==> users[j].id != freshId
    requires name != "" && email != "" && password != "" && otp != ""
    requires forall j :: 0 <= j < |users| ==> users[j].email != email
    requires now <= later <= now + OtpLifetime
    ensures var reg := RegisterIn(users, freshId, name, email, password, hashed, otp, now);
      var v1 := VerifyOtpIn(reg.1, Some(freshId), otp, later);
      var v2 := VerifyOtpIn(v1.1, Some(freshId), otp, later);
      && reg.0 == Success(freshId)
      && v1.0.Success?
      && v1.1[|users|].verifyEmail && !v1.1[|users|].isTemp && v1.1[|users|].emailOtp.None?
      && v2 == (Failure(400, "User already verified"), v1.1)
  {
    var reg := RegisterIn(users, freshId, name, email, password, hashed, otp, now);
    assert reg.1[|users|].id == freshId;
    var r := FindById(reg.1, freshId);
    assert r.Some? && r.value <= |users|;
    if r.value < |users| {
      assert false;
    }
    var v1 := VerifyOtpIn(reg.1, Some(freshId), otp, later);
    assert v1.1[|users|].id == freshId;
    var r1 := FindById(v1.1, freshId);
    assert r1.Some? && r1.value <= |users|;
    if r1.value < |users| {
      assert false;
    }
  }

  // ---------------------------------------------------------------------------
  // Login

  datatype LoginData = LoginData(accessToken: string, refreshToken: string, verifyEmail: bool)

  /** `loginController`: `checkPassword` is bcrypt's comparison of a plain
      password with a stored hash; `accessToken` and `refreshToken` are the
      signed tokens.  Storing the refresh token fails when it equals the one
      already stored (the update modifies nothing), and the handler then
      replies 500. */
  function LoginIn(users: seq<User>, email: string, password: string, checkPassword: (string, string) -> bool,
                   accessToken: string, refreshToken: string, now: Time): (a: (Outcome<LoginData>, seq<User>))
    ensures (email == "" || password == "") ==> a == (Failure(400, "Provide email and password"), users)
    ensures email != "" && password != "" && FindByEmail(users, email).None? ==>
              a == (Failure(400, "User not registered"), users)
    ensures email != "" && password != "" && FindByEmail(users, email).Some? ==>
              var i := FindByEmail(users, email).value; var u := users[i];
              && (u.status != "Active" ==> a == (Failure(400, "Contact Admin"), users))
              && (u.status == "Active" && !checkPassword(password, u.password) ==>
                    a == (Failure(400, "Invalid email or password"), users))
              && (a.0.Success? <==> u.status == "Active" && checkPassword(password, u.password)
                                    && refreshToken != u.refreshToken)
              && (a.0.Success? ==> a.0.data == LoginData(accessToken, refreshToken, u.verifyEmail)
                                   && a.1 == users[i := u.(refreshToken := refreshToken, lastLoginDate := Some(now))])
    ensures a.0.Failure? ==> a.1 == users
  {
    if email == "" || password == "" then (Failure(400, "Provide email and password"), users)
    else match FindByEmail(users, email)
      case None => (Failure(400, "User not registered"), users)
      case Some(i) =>
        var u := users[i];
        if u.status != "Active" then (Failure(400, "Contact Admin"), users)
        else if !checkPassword(password, u.password) then (Failure(400, "Invalid email or password"), users)
        else if refreshToken == u.refreshToken then
          (Failure(500, "Failed to update refresh token in database"), users)
        else
          (Success(LoginData(accessToken, refreshToken, u.verifyEmail)),
           users[i := u.(refreshToken := refreshToken, lastLoginDate := Some(now))])
  }

  /** Login looks neither at `is_temp` nor at `verify_email`: an unverified
      temporary user logs in exactly as a verified one would. */
  lemma LoginIgnoresVerification(users: seq<User>, i: nat, isTemp: bool, verified: bool, email: string, password: string,
                                 checkPassword: (string, string) -> bool, accessToken: string, refreshToken: string,
                                 now: Time)
    requires i < |users|
    ensures var other := users[i := users[i].(isTemp := isTemp, verifyEmail := verified)];
      LoginIn(other, email, password, checkPassword, accessToken, refreshToken, now).0.Success?
      == LoginIn(users, email, password, checkPassword, accessToken, refreshToken, now).0.Success?
  {
    var other := users[i := users[i].(isTemp := isTemp, verifyEmail := verified)];
    EmailLookupIgnoresOtherFields(users, i, other[i], email);
  }

  /** Changing fields other than the e-mail does not move `findOne({ email })`. */
  lemma {:induction false} EmailLookupIgnoresOtherFields(users: seq<User>, i: nat, u: User, email: string)
    requires i < |users| && u.email == users[i].email
    ensures FindByEmail(users[i := u], email) == FindByEmail(users, email)
    decreases |users|
  {
    if |users| > 0 && i > 0 {
      assert users[i := u][1..] == users[1..][i - 1 := u];
      EmailLookupIgnoresOtherFields(users[1..], i - 1, u, email);
    }
  }

  // ---------------------------------------------------------------------------
  // Profile update

  /** The `updateOne` document: each of name, e-mail, mobile and password
      (as `hashed`) only when supplied non-empty. */
  function ApplyDetails(u: User, name: string, email: string, mobile: string, password: string, hashed: string): (v: User)
    ensures v.name == (if name != "" then name else u.name)
    ensures v.email == (if email != "" then email else u.email)
    ensures v.mobile == (if mobile != "" then mobile else u.mobile)
    ensures v.password == (if password != "" then hashed else u.password)
    ensures v.(name := u.name, email := u.email, mobile := u.mobile, password := u.password) == u
  {
    var v1 := if name != "" then u.(name := name) else u;
    var v2 := if email != "" then v1.(email := email) else v1;
    var v3 := if mobile != "" then v2.(mobile := mobile) else v2;
    if password != "" then v3.(password := hashed) else v3
  }

  /** `updateUserDetails`: replies success whether or not a user matched. */
  function UpdateDetailsIn(users: seq<User>, userId: ObjectId, name: string, email: string, mobile: string,
                           password: string, hashed: string): (a: (Outcome<Done>, seq<User>))
    ensures a.0 == Success(Done)
    ensures FindById(users, userId).None? ==> a.1 == users
    ensures FindById(users, userId).Some? ==> var i := FindById(users, userId).value;
              a.1 == users[i := ApplyDetails(users[i], name, email, mobile, password, hashed)]
  {
    match FindById(users, userId)
    case None => (Success(Done), users)
    case Some(i) => (Success(Done), users[i := ApplyDetails(users[i], name, email, mobile, password, hashed)])
  }

  /** Sending back the stored values changes nothing. */
  lemma ApplyDetailsIdempotent(u: User, name: string, email: string, mobile: string, password: string, hashed: string)
    ensures var v := ApplyDetails(u, name, email, mobile, password, hashed);
      ApplyDetails(v, name, email, mobile, password, hashed) == v
    ensures ApplyDetails(u, "", "", "", "", hashed) == u
  {
  }

  // ---------------------------------------------------------------------------
  // Forgot-password OTP and reset

  /** JavaScript's `<` on two strings: lexicographic order of the characters. */
  predicate StrLess(a: string, b: string)
    decreases |a|
  {
    if |a| == 0 then |b| > 0
    else if |b| == 0 then false
    else if a[0] != b[0] then a[0] < b[0]
    else StrLess(a[1..], b[1..])
  }

  lemma {:induction false} StrLessIrreflexive(a: string)
    ensures !StrLess(a, a)
    decreases |a|
  {
    if |a| > 0 {
      StrLessIrreflexive(a[1..]);
    }
  }

  lemma {:induction false} StrLessAsymmetric(a: string, b: string)
    requires StrLess(a, b)
    ensures !StrLess(b, a)
    decreases |a|
  {
    if |a| > 0 && |b| > 0 && a[0] == b[0] {
      StrLessAsymmetric(a[1..], b[1..]);
    }
  }

  /** `user.forgot_password_expiry < currentTime`: an unset expiry compares
      false, the "" left by a successful check compares true. */
  predicate ForgotExpired(expiry: Option<string>, nowIso: string) {
    expiry.Some? && StrLess(expiry.value, nowIso)
  }

  /** `verifyForgotPasswordOtp`: `nowIso` is `new Date().toISOString()`. */
  function VerifyForgotIn(users: seq<User>, email: string, otp: string, nowIso: string): (a: (Outcome<Done>, seq<User>))
    ensures (email == "" || otp == "") ==> a == (Failure(400, "Provide required field email, otp."), users)
    ensures email != "" && otp != "" && FindByEmail(users, email).None? ==>
              a == (Failure(400, "Email not available"), users)
    ensures email != "" && otp != "" && FindByEmail(users, email).Some? ==>
              var i := FindByEmail(users, email).value; var u := users[i];
              && (ForgotExpired(u.forgotExpiry, nowIso) ==> a == (Failure(400, "Otp is expired"), users))
              && (!ForgotExpired(u.forgotExpiry, nowIso) && u.forgotOtp != Some(otp) ==>
                    a == (Failure(400, "Invalid otp"), users))
              && (a.0.Success? <==> !ForgotExpired(u.forgotExpiry, nowIso) && u.forgotOtp == Some(otp))
              && (a.0.Success? ==> a.1 == users[i := u.(forgotOtp := Some(""), forgotExpiry := Some(""))])
    ensures a.0.Failure? ==> a.1 == users
  {
    if email == "" || otp == "" then (Failure(400, "Provide required field email, otp."), users)
    else match FindByEmail(users, email)
      case None => (Failure(400, "Email not available"), users)
      case Some(i) =>
        var u := users[i];
        if ForgotExpired(u.forgotExpiry, nowIso) then (Failure(400, "Otp is expired"), users)
        else if u.forgotOtp != Some(otp) then (Failure(400, "Invalid otp"), users)
        else (Success(Done), users[i := u.(forgotOtp := Some(""), forgotExpiry := Some(""))])
  }

  /** A forgot-password code works once: checking it again reports it as
      expired, because the cleared expiry "" sorts before any date. */
  lemma ForgotOtpSingleUse(users: seq<User>, email: string, otp: string, nowIso: string, laterIso: string, otp2: string)
    requires VerifyForgotIn(users, email, otp, nowIso).0.Success?
    requires laterIso != "" && otp2 != ""
    ensures var a := VerifyForgotIn(users, email, otp, nowIso);
      VerifyForgotIn(a.1, email, otp2, laterIso) == (Failure(400, "Otp is expired"), a.1)
  {
    var i := FindByEmail(users, email).value;
    var a := VerifyForgotIn(users, email, otp, nowIso);
    EmailLookupIgnoresOtherFields(users, i, a.1[i], email);
  }

  /** `resetpassword`: `hashed` is the bcrypt hash of `newPassword`.  The
      reply to missing fields carries only the message. */
  function ResetIn(users: seq<User>, email: string, newPassword: string, confirmPassword: string, hashed: string)
    : (a: (Outcome<Done>, seq<User>))
    ensures (email == "" || newPassword == "" || confirmPassword == "") ==>
              a == (Failure(400, "provide required fields email, newPassword, confirmPassword"), users)
    ensures email != "" && newPassword != "" && confirmPassword != "" && FindByEmail(users, email).None? ==>
              a == (Failure(400, "Email is not available"), users)
    ensures email != "" && newPassword != "" && confirmPassword != "" && FindByEmail(users, email).Some?
            && newPassword != confirmPassword ==>
              a == (Failure(400, "newPassword and confirmPassword must be same."), users)
    ensures a.0.Success? <==> email != "" && newPassword != "" && newPassword == confirmPassword
                              && FindByEmail(users, email).Some?
    ensures a.0.Success? ==> var i := FindByEmail(users, email).value;
              a.1 == users[i := users[i].(password := hashed)]
    ensures a.0.Failure? ==> a.1 == users
  {
    if email == "" || newPassword == "" || confirmPassword == "" then
      (Failure(400, "provide required fields email, newPassword, confirmPassword"), users)
    else match FindByEmail(users, email)
      case None => (Failure(400, "Email is not available"), users)
      case Some(i) =>
        if newPassword != confirmPassword then (Failure(400, "newPassword and confirmPassword must be same."), users)
        else (Success(Done), users[i := users[i].(password := hashed)])
  }

  /** The reset never looks at the forgot-password code: its outcome is the
      same whatever that code and its expiry are. */
  lemma ResetIgnoresForgotOtp(users: seq<User>, i: nat, code: Option<string>, expiry: Option<string>,
                              email: string, newPassword: string, confirmPassword: string, hashed: string)
    requires i < |users|
    ensures var other := users[i := users[i].(forgotOtp := code, forgotExpiry := expiry)];
      ResetIn(other, email, newPassword, confirmPassword, hashed).0
      == ResetIn(users, email, newPassword, confirmPassword, hashed).0
  {
    var other := users[i := users[i].(forgotOtp := code, forgotExpiry := expiry)];
    EmailLookupIgnoresOtherFields(users, i, other[i], email);
  }

  // ---------------------------------------------------------------------------
  // The store

  class UserStore {
    var users: seq<User>
    /** The next ObjectId a new document receives. */
    var nextObjectId: ObjectId

    ghost predicate Valid()
      reads this
    {
      DistinctIds(users) && forall i :: 0 <= i < |users| ==> users[i].id < nextObjectId
    }

    constructor ()
      ensures Valid() && users == []
    {
      users := [];
      nextObjectId := 0;
    }

    method Register(name: string, email: string, password: string, hashed: string, otp: string, now: Time)
      returns (r: Outcome<ObjectId>)
      requires Valid()
      modifies this
      ensures Valid()
      ensures (r, users) == RegisterIn(old(users), old(nextObjectId), name, email, password, hashed, otp, now)
      ensures nextObjectId == if r.Success? then old(nextObjectId) + 1 else old(nextObjectId)
    {
      if name == "" || email == "" || password == "" {
        return Failure(400, "Provide email, name, password");
      }
      var existing := FindByEmail(users, email);
      if existing.Some? {
        return Failure(200, "Already registered email");
      }
      var id := nextObjectId;
      nextObjectId := nextObjectId + 1;
      users := users + [TempUser(id, name, email, hashed, otp, now)];
      r := Success(id);
    }

    method VerifyOtp(userId: Option<ObjectId>, otp: string, now: Time) returns (r: Outcome<Done>)
      requires Valid()
      modifies this`users
      ensures Valid()
      ensures (r, users) == VerifyOtpIn(old(users), userId, otp, now)
    {
      if userId.None? || otp == "" {
        return Failure(400, "Provide userId and OTP");
      }
      var found := FindById(users, userId.value);
      if found.None? {
        return Failure(400, "User not found");
      }
      var i := found.value;
      var u := users[i];
      if !u.isTemp {
        return Failure(400, "User already verified");
      }
      if ExpiryMs(u.emailExpiry) < now {
        users := RemoveAt(users, i);
        return Failure(400, "OTP has expired");
      }
      if u.emailOtp != Some(otp) {
        return Failure(400, "Invalid OTP");
      }
      users := users[i := u.(verifyEmail := true, emailOtp := None, emailExpiry := None, isTemp := false)];
      r := Success(Done);
    }

    method Login(email: string, password: string, checkPassword: (string, string) -> bool,
                 accessToken: string, refreshToken: string, now: Time) returns (r: Outcome<LoginData>)
      requires Valid()
      modifies this`users
      ensures Valid()
      ensures (r, users) == LoginIn(old(users), email, password, checkPassword, accessToken, refreshToken, now)
    {
      if email == "" || password == "" {
        return Failure(400, "Provide email and password");
      }
      var found := FindByEmail(users, email);
      if found.None? {
        return Failure(400, "User not registered");
      }
      var i := found.value;
      var u := users[i];
      if u.status != "Active" {
        return Failure(400, "Contact Admin");
      }
      if !checkPassword(password, u.password) {
        return Failure(400, "Invalid email or password");
      }
      if refreshToken == u.refreshToken {
        return Failure(500, "Failed to update refresh token in database");
      }
      users := users[i := u.(refreshToken := refreshToken, lastLoginDate := Some(now))];
      r := Success(LoginData(accessToken, refreshToken, u.verifyEmail));
    }

    method UpdateUserDetails(userId: ObjectId, name: string, email: string, mobile: string, password: string,
                             hashed: string) returns (r: Outcome<Done>)
      requires Valid()
      modifies this`users
      ensures Valid()
      ensures (r, users) == UpdateDetailsIn(old(users), userId, name, email, mobile, password, hashed)
    {
      var found := FindById(users, userId);
      if found.Some? {
        var i := found.value;
        users := users[i := ApplyDetails(users[i], name, email, mobile, password, hashed)];
      }
      r := Success(Done);
    }

    method VerifyForgotPasswordOtp(email: string, otp: string, nowIso: string) returns (r: Outcome<Done>)
      requires Valid()
      modifies this`users
      ensures Valid()
      ensures (r, users) == VerifyForgotIn(old(users), email, otp, nowIso)
    {
      if email == "" || otp == "" {
        return Failure(400, "Provide required field email, otp.");
      }
      var found := FindByEmail(users, email);
      if found.None? {
        return Failure(400, "Email not available");
      }
      var i := found.value;
      if ForgotExpired(users[i].forgotExpiry, nowIso) {
        return Failure(400, "Otp is expired");
      }
      if users[i].forgotOtp != Some(otp) {
        return Failure(400, "Invalid otp");
      }
      users := users[i := users[i].(forgotOtp := Some(""), forgotExpiry := Some(""))];
      r := Success(Done);
    }

    method ResetPassword(email: string, newPassword: string, confirmPassword: string, hashed: string)
      returns (r: Outcome<Done>)
      requires Valid()
      modifies this`users
      ensures Valid()
      ensures (r, users) == ResetIn(old(users), email, newPassword, confirmPassword, hashed)
    {
      if email == "" || newPassword == "" || confirmPassword == "" {
        return Failure(400, "provide required fields email, newPassword, confirmPassword");
      }
      var found := FindByEmail(users, email);
      if found.None? {
        return Failure(400, "Email is not available");
      }
      var i := found.value;
      if newPassword != confirmPassword {
        return Failure(400, "newPassword and confirmPassword must be same.");
      }
      users := users[i := users[i].(password := hashed)];
      r := Success(Done);
    }
  }
}
