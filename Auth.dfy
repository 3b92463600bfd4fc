/**
 * The authentication context: the signed-in user, the authenticated flag, the
 * copy of the user kept in local storage under "fitstream_user", the
 * "fitstream_auth" cookie read by the route guard, and the last navigation.
 * All sign-in variants are local simulations that build a user value.
 */
module Auth {
  import opened Common
  import RouteGuard

  const DefaultAvatar: string := "https://images.unsplash.com/photo-1535713875002-d1d0cf377fde?w=100&h=100&fit=crop"
  const DefaultPhone: string := "(86) 99999-9999"
  const DefaultUnit: string := "Simplifit — Zona Norte"
  const OutsideProviderMessage: string := "useAuth must be used within an AuthProvider"

  datatype User = User(id: string, name: string, email: string, phone: string, unit: string, avatar: string)

  datatype SignupData = SignupData(name: string, email: string, phone: string, password: string, unit: string)

  /** A `Partial<User>`: `None` is a key the caller left out. */
  datatype UserPatch = UserPatch(
    id: Option<string>, name: Option<string>, email: Option<string>,
    phone: Option<string>, unit: Option<string>, avatar: Option<string>)

  function Pick(patched: Option<string>, kept: string): string
  {
    match patched
    case Some(v) => v
    case None => kept
  }

  /** `{ ...user, ...data }`: the supplied keys win, the others are kept. */
  function Apply(u: User, patch: UserPatch): User
  {
    User(Pick(patch.id, u.id), Pick(patch.name, u.name), Pick(patch.email, u.email),
         Pick(patch.phone, u.phone), Pick(patch.unit, u.unit), Pick(patch.avatar, u.avatar))
  }

  /** The simulated e-mail sign-in: a fixed test user carrying the given e-mail. */
  function EmailUser(email: string): (u: User)
    ensures u.email == email && u.id == "1"
    ensures u.avatar == DefaultAvatar
  {
    User("1", "Usuário Teste", email, DefaultPhone, DefaultUnit, DefaultAvatar)
  }

  /** The simulated Google and Apple sign-ins: the id is the current time in milliseconds. */
  function ProviderUser(now: nat, name: string, email: string): (u: User)
    ensures u.id == DecimalString(now) && u.name == name && u.email == email
  {
    User(DecimalString(now), name, email, DefaultPhone, DefaultUnit, DefaultAvatar)
  }

  /** The simulated signup: the profile fields come from the form, the password is dropped. */
  function NewUser(data: SignupData, now: nat): (u: User)
    ensures u.name == data.name && u.email == data.email && u.phone == data.phone && u.unit == data.unit
    ensures u.avatar == DefaultAvatar && u.id == DecimalString(now)
  {
    User(DecimalString(now), data.name, data.email, data.phone, data.unit, DefaultAvatar)
  }

  /** The password never reaches the stored user. */
  lemma SignupIgnoresPassword(data: SignupData, now: nat, other: string)
    ensures NewUser(data, now) == NewUser(data.(password := other), now)
  {
  }

  /** Users created at different instants get different ids. */
  lemma SignupIdsDistinct(data: SignupData, now: nat, later: nat)
    requires now != later
    ensures NewUser(data, now).id != NewUser(data, later).id
  {
    if DecimalString(now) == DecimalString(later) {
      DecimalStringInjective(now, later);
    }
  }

  /** A patch overwrites exactly the keys it carries. */
  lemma ApplyOverwritesSuppliedKeys(u: User, patch: UserPatch)
    ensures patch.id.Some? ==> Apply(u, patch).id == patch.id.value
    ensures patch.id.None? ==> Apply(u, patch).id == u.id
    ensures patch.name.Some? ==> Apply(u, patch).name == patch.name.value
    ensures patch.name.None? ==> Apply(u, patch).name == u.name
    ensures patch.email.Some? ==> Apply(u, patch).email == patch.email.value
    ensures patch.email.None? ==> Apply(u, patch).email == u.email
    ensures patch.phone.Some? ==> Apply(u, patch).phone == patch.phone.value
    ensures patch.phone.None? ==> Apply(u, patch).phone == u.phone
    ensures patch.unit.Some? ==> Apply(u, patch).unit == patch.unit.value
    ensures patch.unit.None? ==> Apply(u, patch).unit == u.unit
    ensures patch.avatar.Some? ==> Apply(u, patch).avatar == patch.avatar.value
    ensures patch.avatar.None? ==> Apply(u, patch).avatar == u.avatar
    ensures Apply(u, UserPatch(None, None, None, None, None, None)) == u
  {
  }

  /** `useAuth`: outside a provider there is no context and the hook throws. */
  function UseAuth<C>(context: Option<C>): (r: Result<C, string>)
    ensures r.Ok? <==> context.Some?
    ensures r.Ok? ==> r.value == context.value
    ensures r.Err? ==> r.error == OutsideProviderMessage
  {
    match context
    case Some(c) => Ok(c)
    case None => Err(OutsideProviderMessage)
  }

  /** The cookies the route guard sees for a given cookie state. */
  function CookieJar(authCookie: bool): (jar: map<string, string>)
    ensures RouteGuard.IsAuthenticated(jar) <==> authCookie
  {
    if authCookie then map[RouteGuard.AuthCookie := "true"] else map[]
  }

  class AuthProvider {
    var user: Option<User>
    var isAuthenticated: bool
    /** The "fitstream_user" entry of local storage; JSON encoding is taken as the identity. */
    var storedUser: Option<User>
    /** Whether the "fitstream_auth" cookie is set. */
    var authCookie: bool
    /** The last target handed to the router. */
    var navigation: Option<string>

    ghost predicate Valid()
      reads this
    {
      isAuthenticated <==> user.Some?
    }

    /** The provider starts signed out; storage and cookie are whatever the browser kept. */
    constructor (storedUser: Option<User>, authCookie: bool)
      ensures Valid()
      ensures user == None && !isAuthenticated && navigation == None
      ensures this.storedUser == storedUser && this.authCookie == authCookie
    {
      user := None;
      isAuthenticated := false;
      this.storedUser := storedUser;
      this.authCookie := authCookie;
      navigation := None;
    }

    /** The mount effect: restore the stored user, if any, and set the cookie. */
    method Mount()
      requires Valid()
      modifies this
      ensures Valid()
      ensures storedUser == old(storedUser) && navigation == old(navigation)
      ensures old(storedUser).Some? ==> user == old(storedUser) && isAuthenticated && authCookie
      ensures old(storedUser).None? ==> user == old(user) && isAuthenticated == old(isAuthenticated) && authCookie == old(authCookie)
    {
      if storedUser.Some? {
        user := storedUser;
        isAuthenticated := true;
        authCookie := true;
      }
    }

    /** The steps shared by every sign-in variant and by signup. */
    method SignIn(u: User)
      modifies this
      ensures Valid()
      ensures user == Some(u) && isAuthenticated && storedUser == Some(u) && authCookie
      ensures navigation == Some("/comunidade")
    {
      user := Some(u);
      isAuthenticated := true;
      storedUser := Some(u);
      authCookie := true;
      navigation := Some("/comunidade");
    }

    /** E-mail sign-in; the password is never looked at. */
    method Login(email: string, password: string)
      modifies this
      ensures Valid()
      ensures user == Some(EmailUser(email)) && isAuthenticated
      ensures storedUser == user && authCookie && navigation == Some("/comunidade")
    {
      SignIn(EmailUser(email));
    }

    method LoginWithGoogle(now: nat)
      modifies this
      ensures Valid()
      ensures user == Some(ProviderUser(now, "Usuário Google", "usuario@gmail.com")) && isAuthenticated
      ensures storedUser == user && authCookie && navigation == Some("/comunidade")
    {
      SignIn(ProviderUser(now, "Usuário Google", "usuario@gmail.com"));
    }

    method LoginWithApple(now: nat)
      modifies this
      ensures Valid()
      ensures user == Some(ProviderUser(now, "Usuário Apple", "usuario@icloud.com")) && isAuthenticated
      ensures storedUser == user && authCookie && navigation == Some("/comunidade")
    {
      SignIn(ProviderUser(now, "Usuário Apple", "usuario@icloud.com"));
    }

    method Signup(data: SignupData, now: nat)
      modifies this
      ensures Valid()
      ensures user == Some(NewUser(data, now)) && isAuthenticated
      ensures storedUser == user && authCookie && navigation == Some("/comunidade")
    {
      SignIn(NewUser(data, now));
    }

    /** Sign out: forget the user, drop the stored copy, expire the cookie, go to /login. */
    method Logout()
      modifies this
      ensures Valid()
      ensures user == None && !isAuthenticated && storedUser == None && !authCookie
      ensures navigation == Some("/login")
    {
      user := None;
      isAuthenticated := false;
      storedUser := None;
      authCookie := false;
      navigation := Some("/login");
    }

    /** Merge a patch into the signed-in user and store the result; signed out, nothing changes. */
    method UpdateUser(patch: UserPatch)
      requires Valid()
      modifies this
      ensures Valid()
      ensures isAuthenticated == old(isAuthenticated) && authCookie == old(authCookie) && navigation == old(navigation)
      ensures old(user).Some? ==> user == Some(Apply(old(user).value, patch)) && storedUser == user
      ensures old(user).None? ==> user == None && storedUser == old(storedUser)
    {
      if user.Some? {
        var updated := Apply(user.value, patch);
        user := Some(updated);
        storedUser := Some(updated);
      }
    }
  }

  /** Once the provider has signed someone in, the route guard lets protected pages through. */
  lemma SignedInPassesGuard(authCookie: bool, pathname: string)
    requires authCookie
    ensures RouteGuard.Middleware(pathname, CookieJar(authCookie)) != RouteGuard.Redirect("/login")
  {
    RouteGuard.RedirectsMatchAuthentication(pathname, CookieJar(authCookie));
  }

  /** After sign-out the route guard sends every protected page back to /login. */
  lemma SignedOutIsBounced(authCookie: bool, pathname: string)
    requires !authCookie && RouteGuard.IsProtectedRoute(pathname)
    ensures RouteGuard.Middleware(pathname, CookieJar(authCookie)) == RouteGuard.Redirect("/login")
  {
  }
}
