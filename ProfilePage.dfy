/** The profile form: fields seeded from the signed-in user, saved back through `updateUser`. */
module ProfilePage {
  import opened Common
  import opened PhoneMask
  import opened Auth

  /** `user?.field || ""`: the user's value, or the empty string without a user. */
  function Initial(user: Option<User>, field: User -> string): (r: string)
    ensures user.None? ==> r == ""
    ensures user.Some? ==> r == field(user.value)
  {
    match user
    case Some(u) => if field(u) != "" then field(u) else ""
    case None => ""
  }

  /** The patch `handleSave` hands to `updateUser`: exactly name, e-mail, phone and unit. */
  function SavePatch(name: string, email: string, phone: string, unit: string): (p: UserPatch)
    ensures p.id.None? && p.avatar.None?
    ensures p.name == Some(name) && p.email == Some(email) && p.phone == Some(phone) && p.unit == Some(unit)
  {
    UserPatch(None, Some(name), Some(email), Some(phone), Some(unit), None)
  }

  /** Saving keeps the id and avatar and replaces the four edited fields. */
  lemma SaveKeepsIdentity(u: User, name: string, email: string, phone: string, unit: string)
    ensures Apply(u, SavePatch(name, email, phone, unit)) == User(u.id, name, email, phone, unit, u.avatar)
  {
  }

  class ProfileForm {
    var showPasswordModal: bool
    var phone: string
    var name: string
    var email: string
    var unit: string
    /** The last target handed to the router by this page. */
    var navigation: Option<string>

    constructor (user: Option<User>)
      ensures !showPasswordModal && navigation == None
      ensures user.Some? ==> phone == user.value.phone && name == user.value.name
                             && email == user.value.email && unit == user.value.unit
      ensures user.None? ==> phone == "" && name == "" && email == "" && unit == ""
    {
      showPasswordModal := false;
      phone := Initial(user, (u: User) => u.phone);
      name := Initial(user, (u: User) => u.name);
      email := Initial(user, (u: User) => u.email);
      unit := Initial(user, (u: User) => u.unit);
      navigation := None;
    }

    /** The page's own copy of `formatPhone`, textually the signup page's. */
    method HandlePhoneChange(value: string)
      modifies this
      ensures phone == FormatPhone(old(phone), value)
      ensures |StripNonDigits(value)| > 11 ==> phone == old(phone)
      ensures showPasswordModal == old(showPasswordModal) && name == old(name) && email == old(email)
      ensures unit == old(unit) && navigation == old(navigation)
    {
      phone := FormatPhone(phone, value);
    }

    /** `handleSave`: update the user with the four form fields, then go to the feed. */
    method HandleSave(auth: AuthProvider)
      requires auth.Valid()
      modifies this, auth
      ensures auth.Valid()
      ensures old(auth.user).Some? ==>
        auth.user == Some(User(old(auth.user).value.id, name, email, phone, unit, old(auth.user).value.avatar))
        && auth.storedUser == auth.user
      ensures old(auth.user).None? ==> auth.user == None && auth.storedUser == old(auth.storedUser)
      ensures auth.isAuthenticated == old(auth.isAuthenticated) && auth.authCookie == old(auth.authCookie)
      ensures navigation == Some("/comunidade")
      ensures phone == old(phone) && name == old(name) && email == old(email) && unit == old(unit)
      ensures showPasswordModal == old(showPasswordModal)
    {
      auth.UpdateUser(SavePatch(name, email, phone, unit));
      if old(auth.user).Some? {
        SaveKeepsIdentity(old(auth.user).value, name, email, phone, unit);
      }
      navigation := Some("/comunidade");
    }

    /** Submitting the password form only closes the modal. */
    method HandlePasswordChange()
      modifies this
      ensures !showPasswordModal
      ensures phone == old(phone) && name == old(name) && email == old(email) && unit == old(unit)
      ensures navigation == old(navigation)
    {
      showPasswordModal := false;
    }
  }
}
