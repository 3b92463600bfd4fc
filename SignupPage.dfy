/** The signup form: the masked phone field and the submission to the auth context. */
module SignupPage {
  import opened Common
  import opened PhoneMask
  import opened Auth

  class SignupForm {
    /** The controlled value of the phone input. */
    var phone: string

    /** The field only ever holds what the mask produces, so it fits maxLength 15. */
    ghost predicate Valid()
      reads this
    {
      WellFormed(phone)
    }

    constructor ()
      ensures Valid() && phone == ""
    {
      phone := "";
    }

    /** `handlePhoneChange`: the field becomes the formatted input, or keeps its value above 11 digits. */
    method HandlePhoneChange(value: string)
      requires Valid()
      modifies this
      ensures Valid()
      ensures phone == FormatPhone(old(phone), value)
      ensures |StripNonDigits(value)| <= 11 ==> StripNonDigits(phone) == StripNonDigits(value) && |phone| <= 15
      ensures |StripNonDigits(value)| > 11 ==> phone == old(phone)
    {
      phone := FormatPhone(phone, value);
      FormatWellFormed(old(phone), value);
      if |StripNonDigits(value)| <= 11 {
        FormatLength(old(phone), value);
      }
    }

    /** `handleSubmit`: the form's fields, with the masked phone, go to `signup`. */
    method HandleSubmit(auth: AuthProvider, name: string, email: string, password: string, unit: string, now: nat)
      modifies auth
      ensures auth.Valid()
      ensures auth.user == Some(NewUser(SignupData(name, email, phone, password, unit), now))
      ensures auth.user.value.phone == phone && auth.storedUser == auth.user && auth.authCookie
    {
      auth.Signup(SignupData(name, email, phone, password, unit), now);
    }
  }
}
