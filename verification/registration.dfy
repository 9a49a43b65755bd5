/**
 The phone number of `RegistrationForm`: it must be ten digits, it must not
 already be registered in its `+91` form, and once the whole form
 validates on submit the field's data is rewritten to that form.

 The users table is abstracted as the set of phone values the duplicate
 lookup would find.
 */
module Registration {
  import opened Digits

  const PHONE_DIGITS: nat := 10
  /** The country code put in front of every accepted number. */
  const COUNTRY_PREFIX: string := "+91"

  /** The format rule of the phone field (its `Regexp` validator). */
  predicate PhoneFormatValid(raw: string)
  {
    ExactDigits(raw, PHONE_DIGITS)
  }

  /** The value looked up for a raw entry and written back to the field. */
  function Prefixed(raw: string): string
  {
    COUNTRY_PREFIX + raw
  }

  /** The shape of a prefixed phone: `+91` followed by ten digits. */
  predicate IsPrefixedPhone(s: string)
  {
    |s| == |COUNTRY_PREFIX| + PHONE_DIGITS
    && s[..|COUNTRY_PREFIX|] == COUNTRY_PREFIX
    && ExactDigits(s[|COUNTRY_PREFIX|..], PHONE_DIGITS)
  }

  /** The ten digits of a prefixed phone. */
  function LocalNumber(prefixed: string): (raw: string)
    requires IsPrefixedPhone(prefixed)
    ensures PhoneFormatValid(raw)
    ensures Prefixed(raw) == prefixed
  {
    prefixed[|COUNTRY_PREFIX|..]
  }

  /**
   The phone field passes: data present (`DataRequired`), ten digits
   (`Regexp`) and no user registered with the prefixed number (`validate_phone`).
   */
  predicate PhoneFieldValid(raw: string, registeredPhones: set<string>)
  {
    PhoneFormatValid(raw) && Prefixed(raw) !in registeredPhones
  }

  /** An entry is accepted iff prefixing it yields a prefixed-phone shape, and the prefix comes off again. */
  lemma PrefixRoundTrip(raw: string)
    ensures PhoneFormatValid(raw) <==> IsPrefixedPhone(Prefixed(raw))
    ensures IsPrefixedPhone(Prefixed(raw)) ==> LocalNumber(Prefixed(raw)) == raw
  {
    assert Prefixed(raw)[..|COUNTRY_PREFIX|] == COUNTRY_PREFIX;
    assert Prefixed(raw)[|COUNTRY_PREFIX|..] == raw;
  }

  /** A prefixed value is thirteen characters long and starts with `+91`. */
  lemma PrefixedPhoneShape(raw: string)
    requires PhoneFormatValid(raw)
    ensures |Prefixed(raw)| == 13
    ensures Prefixed(raw)[..3] == "+91"
    ensures Prefixed(raw)[3..] == raw
  {
  }

  /**
   A prefixed value fails the format rule, so submitting the form again with
   the rewritten field is rejected and the prefix is never added twice.
   */
  lemma PrefixedPhoneFailsFormat(s: string)
    requires IsPrefixedPhone(s)
    ensures !PhoneFormatValid(s)
    ensures !RegexAccepts(s, PHONE_DIGITS)
  {
    assert s[0] == s[..|COUNTRY_PREFIX|][0] == '+';
    assert !IsDigit(s[0]);
  }

  /**
   The duplicate check looks for the prefixed number only: a raw ten-digit
   value in the set never blocks registration, the prefixed one always does.
   */
  lemma DuplicateCheckUsesPrefixedForm(raw: string, registeredPhones: set<string>)
    requires PhoneFormatValid(raw)
    ensures PhoneFieldValid(raw, registeredPhones + {raw}) <==> PhoneFieldValid(raw, registeredPhones)
    ensures !PhoneFieldValid(raw, registeredPhones + {Prefixed(raw)})
  {
    assert |Prefixed(raw)| != |raw|;
  }

  /**
   As written, the pattern lets ten digits followed by a newline through; the
   value then written back is fourteen characters long and not a prefixed-phone shape.
   */
  lemma TrailingNewlinePhone()
    ensures RegexAccepts("0123456789\n", PHONE_DIGITS)
    ensures !PhoneFormatValid("0123456789\n")
    ensures |Prefixed("0123456789\n")| == 14 && !IsPrefixedPhone(Prefixed("0123456789\n"))
  {
  }

  class RegistrationForm {
    /** The phone field's data. */
    var phone: string

    constructor (phone: string)
      ensures this.phone == phone
    {
      this.phone := phone;
    }

    /**
     `validate_on_submit`: the request is a submission and every field
     validates. The fields other than the phone are summarised by
     `otherFieldsValid`. On success the phone field is rewritten to its
     prefixed form; otherwise it is left as it was.
     */
    method ValidateOnSubmit(submitted: bool, otherFieldsValid: bool, registeredPhones: set<string>)
      returns (rv: bool)
      modifies this
      ensures rv == (submitted && otherFieldsValid && PhoneFieldValid(old(phone), registeredPhones))
      ensures phone == if rv then Prefixed(old(phone)) else old(phone)
      ensures rv ==> IsPrefixedPhone(phone) && LocalNumber(phone) == old(phone)
    {
      var formatOk := ExactDigits(phone, PHONE_DIGITS);
      var duplicate := COUNTRY_PREFIX + phone in registeredPhones;
      rv := submitted && otherFieldsValid && formatOk && !duplicate;
      if rv {
        PrefixRoundTrip(phone);
        phone := COUNTRY_PREFIX + phone;
      }
    }
  }

  /** Submitting twice: the second submission is rejected and leaves the prefixed form alone. */
  method SubmitTwice(form: RegistrationForm, otherFieldsValid: bool, registeredPhones: set<string>)
    returns (first: bool, second: bool)
    modifies form
    ensures first ==> !second && form.phone == Prefixed(old(form.phone))
  {
    first := form.ValidateOnSubmit(true, otherFieldsValid, registeredPhones);
    if first {
      PrefixedPhoneFailsFormat(form.phone);
    }
    second := form.ValidateOnSubmit(true, otherFieldsValid, registeredPhones);
  }
}
