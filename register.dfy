/** The sign-up page (`Register`): the form's fields and flags, the OTP input
    filter, the two buttons' gating, and the state changes of Send OTP and
    Verify OTP. */
module Register {
  import opened Common
  import opened UserController

  /** `^\d{0,6}$`. */
  predicate OtpPattern(value: string) {
    |value| <= 6 && AllDigits(value)
  }

  datatype FormField = Name | Email | Password | ConfirmPassword | Otp

  /** What the form sends to the register endpoint. */
  datatype Registration = Registration(name: string, email: string, password: string)

  class RegisterForm {
    var name: string
    var email: string
    var password: string
    var confirmPassword: string
    var otp: string
    var userId: Option<ObjectId>
    var isOtpSent: bool
    var isLoading: bool

    /** The stored OTP is always at most six digits. */
    predicate Valid()
      reads this
    {
      OtpPattern(otp)
    }

    predicate FieldsFilled()
      reads this
    {
      name != "" && email != "" && password != "" && confirmPassword != ""
    }

    /** `isSendOtpValid`. */
    predicate SendOtpValid()
      reads this
    {
      FieldsFilled() && password == confirmPassword
    }

    /** `validateValue`. */
    predicate ValidateValue()
      reads this
    {
      if isOtpSent then |otp| == 6 && FieldsFilled() else FieldsFilled()
    }

    /** The Send OTP button, shown until an OTP has been sent. */
    predicate SendButtonEnabled()
      reads this
    {
      !isOtpSent && SendOtpValid() && !isLoading
    }

    /** The Verify OTP button, shown once an OTP has been sent. */
    predicate VerifyButtonEnabled()
      reads this
    {
      isOtpSent && ValidateValue() && !isLoading
    }

    constructor()
      ensures name == "" && email == "" && password == "" && confirmPassword == "" && otp == ""
      ensures userId.None? && !isOtpSent && !isLoading
      ensures Valid()
    {
      name, email, password, confirmPassword, otp := "", "", "", "", "";
      userId := None;
      isOtpSent := false;
      isLoading := false;
    }

    /** `handleChange`: the OTP field takes only a value matching the pattern,
        every other field takes any value. The OTP input is rendered once an
        OTP has been sent, the other inputs are disabled from then on, and all
        of them are disabled while a request is in flight. */
    method HandleChange(field: FormField, value: string)
      requires Valid() && !isLoading
      requires field == Otp <==> isOtpSent
      modifies this`name, this`email, this`password, this`confirmPassword, this`otp
      ensures Valid()
      ensures field == Otp && !OtpPattern(value) ==>
                otp == old(otp) && name == old(name) && email == old(email)
                && password == old(password) && confirmPassword == old(confirmPassword)
      ensures field == Otp && OtpPattern(value) ==>
                otp == value && name == old(name) && email == old(email)
                && password == old(password) && confirmPassword == old(confirmPassword)
      ensures field == Name ==> name == value && email == old(email) && password == old(password)
                                && confirmPassword == old(confirmPassword) && otp == old(otp)
      ensures field == Email ==> email == value && name == old(name) && password == old(password)
                                 && confirmPassword == old(confirmPassword) && otp == old(otp)
      ensures field == Password ==> password == value && name == old(name) && email == old(email)
                                    && confirmPassword == old(confirmPassword) && otp == old(otp)
      ensures field == ConfirmPassword ==> confirmPassword == value && name == old(name) && email == old(email)
                                           && password == old(password) && otp == old(otp)
    {
      match field
      case Otp =>
        if OtpPattern(value) {
          otp := value;
        }
      case Name => name := value;
      case Email => email := value;
      case Password => password := value;
      case ConfirmPassword => confirmPassword := value;
    }

    /** `handleSendOtp`. It returns the registration it sends, if any:
        mismatched passwords send nothing. `reply` is the user id of a
        successful response, None for an error reply or a failed request. */
    method SendOtp(reply: Option<ObjectId>) returns (request: Option<Registration>)
      modifies this`userId, this`isOtpSent, this`isLoading
      ensures request.Some? <==> old(password) == old(confirmPassword)
      ensures request.Some? ==> request.value == Registration(name, email, password)
      ensures request.Some? && reply.Some? ==> userId == reply && isOtpSent
      ensures request.None? || reply.None? ==> userId == old(userId) && isOtpSent == old(isOtpSent)
      ensures !isLoading
    {
      isLoading := true;
      if password != confirmPassword {
        isLoading := false;
        return None;
      }
      request := Some(Registration(name, email, password));
      if reply.Some? {
        userId := reply;
        isOtpSent := true;
      }
      isLoading := false;
    }

    /** `handleVerifyOtp`. It returns the `(userId, otp)` it sends, if any:
        nothing without a user id or an OTP. `verified` is whether the
        response reports success; success clears the form. */
    method VerifyOtp(verified: bool) returns (request: Option<(ObjectId, string)>)
      requires Valid()
      modifies this`name, this`email, this`password, this`confirmPassword, this`otp,
               this`userId, this`isOtpSent, this`isLoading
      ensures Valid() && !isLoading
      ensures request.Some? <==> old(userId).Some? && old(otp) != ""
      ensures request.Some? ==> request.value == (old(userId).value, old(otp))
      ensures request.Some? && verified ==>
                && name == "" && email == "" && password == "" && confirmPassword == "" && otp == ""
                && !isOtpSent && userId.None?
      ensures request.None? || !verified ==>
                && name == old(name) && email == old(email) && password == old(password)
                && confirmPassword == old(confirmPassword) && otp == old(otp)
                && isOtpSent == old(isOtpSent) && userId == old(userId)
    {
      isLoading := true;
      if userId.None? || otp == "" {
        isLoading := false;
        return None;
      }
      request := Some((userId.value, otp));
      if verified {
        name, email, password, confirmPassword, otp := "", "", "", "", "";
        isOtpSent := false;
        userId := None;
      }
      isLoading := false;
    }
  }

  /** A registration the enabled Send OTP button sends gets past the
      handler's missing-field check. */
  lemma SendButtonRequestHasFields(f: RegisterForm, users: seq<User>, freshId: ObjectId, hashed: string,
                                   otp: string, now: Time)
    requires f.SendButtonEnabled()
    ensures RegisterIn(users, freshId, f.name, f.email, f.password, hashed, otp, now).0
            != Failure(400, "Provide email, name, password")
  {
  }

  /** With the Verify OTP button enabled and a user id held, the request
      carries a six-digit OTP, which gets past the handler's missing-field
      check. */
  lemma VerifyButtonRequestHasOtp(f: RegisterForm, users: seq<User>, now: Time)
    requires f.Valid() && f.VerifyButtonEnabled() && f.userId.Some?
    ensures |f.otp| == 6 && AllDigits(f.otp)
    ensures VerifyOtpIn(users, f.userId, f.otp, now).0 != Failure(400, "Provide userId and OTP")
  {
  }
}
