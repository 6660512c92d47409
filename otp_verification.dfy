/** The forgot-password OTP page (`OtpVerification`): six one-character
    cells, the focus moving between them, and the submit that joins them. */
module OtpVerification {
  import opened Common
  import opened UserController

  const CellCount := 6

  /** `^\d?$`: empty or a single digit. */
  predicate CellPattern(value: string) {
    |value| <= 1 && AllDigits(value)
  }

  /** `data.join("")` on cells of one character each is the string of those
      characters. */
  lemma {:induction false} JoinOfSingleCharacters(cells: seq<string>)
    requires forall i :: 0 <= i < |cells| ==> |cells[i]| == 1
    ensures |Join(cells, "")| == |cells|
    ensures forall i :: 0 <= i < |cells| ==> Join(cells, "")[i] == cells[i][0]
    decreases |cells|
  {
    if |cells| > 1 {
      JoinOfSingleCharacters(cells[1..]);
      assert Join(cells, "") == cells[0] + Join(cells[1..], "");
      forall i | 0 <= i < |cells|
        ensures Join(cells, "")[i] == cells[i][0]
      {
        if i > 0 {
          assert Join(cells, "")[i] == Join(cells[1..], "")[i - 1];
          assert cells[1..][i - 1] == cells[i];
        }
      }
    }
  }

  class OtpForm {
    /** `data`: the six cells, replaced by a copy on every accepted edit. */
    var cells: seq<string>
    /** The index of the cell holding the focus. */
    var focus: int
    /** `location?.state?.email`: None when the page was opened without one. */
    const email: Option<string>

    /** Six cells, each empty or one digit. */
    predicate Valid()
      reads this
    {
      |cells| == CellCount && forall i :: 0 <= i < |cells| ==> CellPattern(cells[i])
    }

    /** `valideValue`: the Verify button is enabled when every cell is filled. */
    predicate SubmitEnabled()
      reads this
    {
      forall i :: 0 <= i < |cells| ==> cells[i] != ""
    }

    /** The effect on mount sends the user back to the forgot-password page
        when no e-mail came with the navigation. */
    predicate RedirectsBack()
      reads this
    {
      email.None? || email.value == ""
    }

    constructor(email: Option<string>)
      ensures this.email == email && cells == ["", "", "", "", "", ""] && focus == 0
      ensures Valid() && !SubmitEnabled()
    {
      this.email := email;
      cells := ["", "", "", "", "", ""];
      focus := 0;
      new;
      assert cells[0] == "";
    }

    /** `handleChange`: a value that is empty or one digit replaces cell
        `index` alone; the focus then moves right after a digit (except from
        the last cell) and left after a clear (except from the first). Any
        other value changes nothing. */
    method HandleChange(index: nat, value: string)
      requires Valid() && index < CellCount
      modifies this`cells, this`focus
      ensures Valid()
      ensures !CellPattern(value) ==> cells == old(cells) && focus == old(focus)
      ensures CellPattern(value) ==> cells == old(cells)[index := value]
      ensures CellPattern(value) && value != "" && index < CellCount - 1 ==> focus == index + 1
      ensures CellPattern(value) && value == "" && index > 0 ==> focus == index - 1
      ensures CellPattern(value) && ((value != "" && index == CellCount - 1) || (value == "" && index == 0)) ==>
                focus == old(focus)
    {
      if CellPattern(value) {
        cells := cells[index := value];
        if value != "" && index < CellCount - 1 {
          focus := index + 1;
        }
        if value == "" && index > 0 {
          focus := index - 1;
        }
      }
    }

    /** `handleKeyDown`: Backspace in an empty cell moves the focus left. */
    method HandleKeyDown(index: nat, key: string)
      requires Valid() && index < CellCount
      modifies this`focus
      ensures key == "Backspace" && cells[index] == "" && index > 0 ==> focus == index - 1
      ensures !(key == "Backspace" && cells[index] == "" && index > 0) ==> focus == old(focus)
    {
      if key == "Backspace" && cells[index] == "" && index > 0 {
        focus := index - 1;
      }
    }

    /** `handleSubmit` (the button is enabled only with every cell filled):
        the request carries the six digits joined; a successful reply clears
        every cell. */
    method Submit(success: bool) returns (otp: string, sentEmail: Option<string>)
      requires Valid() && SubmitEnabled()
      modifies this`cells
      ensures |otp| == CellCount && AllDigits(otp)
      ensures forall i :: 0 <= i < CellCount ==> otp[i] == old(cells)[i][0]
      ensures sentEmail == email
      ensures Valid()
      ensures success ==> cells == ["", "", "", "", "", ""]
      ensures !success ==> cells == old(cells)
    {
      JoinOfSingleCharacters(cells);
      otp := Join(cells, "");
      sentEmail := email;
      if success {
        cells := ["", "", "", "", "", ""];
      }
    }
  }

  /** A form that stays on the page (no redirect back) submits an e-mail
      and an OTP that get past the check for missing fields. */
  lemma StayingFormHasFields(f: OtpForm, users: seq<User>, otp: string, nowIso: string)
    requires !f.RedirectsBack() && |otp| == CellCount
    ensures f.email.Some?
    ensures VerifyForgotIn(users, f.email.value, otp, nowIso).0 != Failure(400, "Provide required field email, otp.")
  {
    SubmittedOtpHasFields(users, f.email.value, otp, nowIso);
  }

  /** The submitted OTP gets past the check for missing fields of
      `verifyForgotPasswordOtp` whenever an e-mail is present. */
  lemma SubmittedOtpHasFields(users: seq<User>, email: string, otp: string, nowIso: string)
    requires email != "" && |otp| == CellCount
    ensures VerifyForgotIn(users, email, otp, nowIso).0 != Failure(400, "Provide required field email, otp.")
  {
  }
}
