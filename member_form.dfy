/**
 * The add-member form: the phone sanitiser and validator, the submit guard
 * and the reset after a successful submit. The form's state fields become
 * the fields of `MemberFormState`; the `onSubmit` callback becomes the value
 * `HandleSubmit` returns.
 */
module MemberForm {
  import opened Wrappers
  import opened Types
  import opened Dates
  import opened Seqs

  /** The duration preselected in a fresh form. */
  const DefaultDuration: int := 30

  /** The message shown for a phone number that is not ten digits. */
  const PhoneErrorMessage: string := "Please enter a valid 10-digit phone number"

  /** An ASCII decimal digit. */
  predicate IsDigit(c: char) {
    '0' <= c <= '9'
  }

  /** The phone pattern: exactly ten digits. */
  predicate PhoneMatches(phone: string) {
    |phone| == 10 && forall i :: 0 <= i < |phone| ==> IsDigit(phone[i])
  }

  /** What `validatePhone` accepts: an empty number or one matching the pattern. */
  predicate PhoneAcceptable(phone: string) {
    phone == "" || PhoneMatches(phone)
  }

  /** The digits of `s`, in order (removing every non-digit). */
  function DigitsOnly(s: string): (r: string)
    ensures forall c :: c in r <==> c in s && IsDigit(c)
    ensures forall c :: multiset(r)[c] == if IsDigit(c) then multiset(s)[c] else 0
    ensures IsSubsequence(r, s)
  {
    FilterIsSubsequence(s, IsDigit);
    Filter(s, IsDigit)
  }

  /** The phone field's input filter: the first ten digits of what was typed. */
  function SanitizePhone(input: string): (r: string)
    ensures |r| <= 10
    ensures forall i :: 0 <= i < |r| ==> IsDigit(r[i])
    ensures r <= DigitsOnly(input)
    ensures |r| == if |DigitsOnly(input)| < 10 then |DigitsOnly(input)| else 10
  {
    var digits := DigitsOnly(input);
    assert forall i :: 0 <= i < |digits| ==> digits[i] in digits;
    if |digits| <= 10 then digits else digits[..10]
  }

  /** A string of digits passes the digit filter unchanged. */
  lemma {:induction false} DigitsOnlyOfDigits(s: string)
    requires forall i :: 0 <= i < |s| ==> IsDigit(s[i])
    ensures DigitsOnly(s) == s
  {
    FilterKeepsAll(s, IsDigit);
  }

  /** Sanitising is idempotent: re-entering a sanitised number keeps it. */
  lemma {:induction false} SanitizeIdempotent(input: string)
    ensures SanitizePhone(SanitizePhone(input)) == SanitizePhone(input)
  {
    DigitsOnlyOfDigits(SanitizePhone(input));
  }

  /** A number that matches the pattern survives sanitising unchanged. */
  lemma {:induction false} SanitizeKeepsValidPhone(phone: string)
    requires PhoneMatches(phone)
    ensures SanitizePhone(phone) == phone
  {
    DigitsOnlyOfDigits(phone);
  }

  /** A sanitised number is rejected exactly when it has one to nine digits. */
  lemma {:induction false} SanitizedPhoneAcceptable(input: string)
    ensures PhoneAcceptable(SanitizePhone(input)) <==> |SanitizePhone(input)| in {0, 10}
  {
  }

  /** Whether submit passes the form data on: an acceptable phone and a positive price. */
  predicate SubmitAccepted(data: MemberFormData) {
    (data.phoneNumber == "" || PhoneMatches(data.phoneNumber)) && data.price > 0
  }

  /** The submit guard rejects a non-positive price and a non-empty phone that is not ten digits. */
  lemma SubmitGuard(data: MemberFormData)
    ensures data.price <= 0 ==> !SubmitAccepted(data)
    ensures data.phoneNumber != "" && |data.phoneNumber| != 10 ==> !SubmitAccepted(data)
    ensures SubmitAccepted(data) ==> PhoneAcceptable(data.phoneNumber)
  {
  }

  /** The form as it is first shown and after each successful submit. */
  function EmptyForm(today: Day): (f: MemberFormData)
    ensures f.name == "" && f.phoneNumber == "" && f.startDate == today
    ensures f.duration == DefaultDuration && f.price == 0
  {
    MemberFormData("", "", today, DefaultDuration, 0)
  }

  /** A freshly reset form cannot be submitted again as it is: its price is 0. */
  lemma EmptyFormRejected(today: Day)
    ensures !SubmitAccepted(EmptyForm(today))
  {
  }

  /** The state of the add-member form. */
  class MemberFormState {
    var formData: MemberFormData
    var startDatePicker: Day
    var phoneError: string

    constructor (today: Day)
      ensures formData == EmptyForm(today) && startDatePicker == today && phoneError == ""
    {
      formData := EmptyForm(today);
      startDatePicker := today;
      phoneError := "";
    }

    /** Checks `phone` and sets or clears the error message accordingly. */
    method ValidatePhone(phone: string) returns (ok: bool)
      modifies this`phoneError
      ensures ok == PhoneAcceptable(phone)
      ensures phoneError == if ok then "" else PhoneErrorMessage
    {
      if phone == "" {
        phoneError := "";
        return true;
      }
      if !PhoneMatches(phone) {
        phoneError := PhoneErrorMessage;
        return false;
      }
      phoneError := "";
      return true;
    }

    /**
     * Submits the form: returns the data handed to `onSubmit`, or `None` when
     * a guard rejects it. A submitted form is reset for `today`.
     */
    method HandleSubmit(today: Day) returns (submitted: Option<MemberFormData>)
      modifies this
      ensures submitted.Some? <==> SubmitAccepted(old(formData))
      ensures submitted.Some? ==> submitted.value == old(formData)
      ensures submitted.Some? ==> formData == EmptyForm(today) && startDatePicker == today && phoneError == ""
      ensures submitted.None? ==> formData == old(formData) && startDatePicker == old(startDatePicker)
      // the phone is only checked when one was entered
      ensures submitted.None? ==>
        phoneError == (if old(formData).phoneNumber == "" then old(phoneError)
                       else if PhoneMatches(old(formData).phoneNumber) then ""
                       else PhoneErrorMessage)
    {
      if formData.phoneNumber != "" {
        var valid := ValidatePhone(formData.phoneNumber);
        if !valid {
          return None;
        }
      }
      if formData.price <= 0 {
        return None;
      }
      submitted := Some(formData);
      formData := EmptyForm(today);
      startDatePicker := today;
      phoneError := "";
    }

    /** Stores the sanitised input as the phone number; the error is always cleared. */
    method HandlePhoneChange(input: string)
      modifies this`formData, this`phoneError
      ensures formData == old(formData).(phoneNumber := SanitizePhone(input))
      ensures phoneError == ""
    {
      var value := SanitizePhone(input);
      formData := formData.(phoneNumber := value);
      if |value| == 10 {
        var _ := ValidatePhone(value);
      } else {
        phoneError := "";
      }
    }

    /** Stores a price, clamped to be non-negative. */
    method HandlePriceChange(value: int)
      modifies this`formData
      ensures formData == old(formData).(price := ClampNonNegative(value))
      ensures formData.price >= 0
    {
      formData := formData.(price := ClampNonNegative(value));
    }
  }
}
