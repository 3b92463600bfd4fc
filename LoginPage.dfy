/**
 * The login page: the friendly message chosen for a failed e-mail sign-in,
 * the loading flag around it, and the fixed messages of the two provider
 * buttons.
 */
module LoginPage {
  import opened Common
  import opened Auth

  const InvalidCredentials: string := "Invalid login credentials"
  const EmailNotConfirmed: string := "Email not confirmed"
  const UserNotFound: string := "User not found"

  const InvalidCredentialsMessage: string := "E-mail ou senha incorretos. Verifique seus dados e tente novamente."
  const NotConfirmedMessage: string := "Por favor, confirme seu e-mail antes de fazer login. Verifique sua caixa de entrada."
  const NotFoundMessage: string := "Usuário não encontrado. Verifique o e-mail ou crie uma conta."
  const GenericMessage: string := "Erro ao fazer login. Tente novamente."
  const GoogleMessage: string := "Erro ao fazer login com Google. Tente novamente."
  const AppleMessage: string := "Erro ao fazer login com Apple. Tente novamente."

  /**
   * The catch block of `handleEmailLogin`: the first known phrase the error's
   * message contains picks the text; no message, or none of them, gives the
   * generic text.
   */
  function LoginErrorMessage(message: Option<string>): (r: string)
    ensures message.Some? && Contains(message.value, InvalidCredentials) ==> r == InvalidCredentialsMessage
    ensures message.Some? && !Contains(message.value, InvalidCredentials) && Contains(message.value, EmailNotConfirmed)
      ==> r == NotConfirmedMessage
    ensures message.Some? && !Contains(message.value, InvalidCredentials) && !Contains(message.value, EmailNotConfirmed)
      ==> (r == NotFoundMessage <==> Contains(message.value, UserNotFound))
    ensures message.None? ==> r == GenericMessage
  {
    match message
    case None => GenericMessage
    case Some(m) =>
      if Contains(m, InvalidCredentials) then InvalidCredentialsMessage
      else if Contains(m, EmailNotConfirmed) then NotConfirmedMessage
      else if Contains(m, UserNotFound) then NotFoundMessage
      else GenericMessage
  }

  /** Every failure shows one of the four texts, so the page never shows an empty error. */
  lemma ErrorMessageIsKnown(message: Option<string>)
    ensures LoginErrorMessage(message) in [InvalidCredentialsMessage, NotConfirmedMessage, NotFoundMessage, GenericMessage]
    ensures LoginErrorMessage(message) != ""
  {
  }

  /** The backend's phrase is recognised wherever it sits in the message. */
  lemma PhraseAnywhereIsRecognised(before: string, after: string)
    ensures LoginErrorMessage(Some(before + InvalidCredentials + after)) == InvalidCredentialsMessage
  {
    ContainsWrapped(before, InvalidCredentials, after);
  }

  /** When two phrases occur, the one tested first wins. */
  lemma NotFoundLosesToUnconfirmed(before: string, middle: string, after: string)
    requires !Contains(before + EmailNotConfirmed + middle + UserNotFound + after, InvalidCredentials)
    ensures LoginErrorMessage(Some(before + EmailNotConfirmed + middle + UserNotFound + after)) == NotConfirmedMessage
  {
    ContainsWrapped(before, EmailNotConfirmed, middle + UserNotFound + after);
    assert before + EmailNotConfirmed + middle + UserNotFound + after
        == before + EmailNotConfirmed + (middle + UserNotFound + after);
  }

  class LoginForm {
    var error: string
    var isLoading: bool
    /** The last target handed to the router by this page. */
    var navigation: Option<string>

    constructor ()
      ensures error == "" && !isLoading && navigation == None
    {
      error := "";
      isLoading := false;
      navigation := None;
    }

    /** The effect on `isAuthenticated`: an already signed-in visitor is sent to the feed. */
    method OnAuthenticationChange(isAuthenticated: bool)
      modifies this
      ensures navigation == if isAuthenticated then Some("/comunidade") else old(navigation)
      ensures error == old(error) && isLoading == old(isLoading)
    {
      if isAuthenticated {
        navigation := Some("/comunidade");
      }
    }

    /** The first two steps of `handleEmailLogin`: the old error goes, the spinner shows. */
    method BeginEmailLogin()
      modifies this
      ensures error == "" && isLoading && navigation == old(navigation)
    {
      error := "";
      isLoading := true;
    }

    /** The catch and finally blocks; `thrown` is the error `login` threw, with its message if it had one. */
    method FinishEmailLogin(thrown: Option<Option<string>>)
      modifies this
      ensures !isLoading && navigation == old(navigation)
      ensures thrown.Some? ==> error == LoginErrorMessage(thrown.value)
      ensures thrown.None? ==> error == old(error)
    {
      if thrown.Some? {
        error := LoginErrorMessage(thrown.value);
      }
      isLoading := false;
    }

    /**
     * `handleEmailLogin`. `thrown` says whether the awaited `login` threw; the
     * provider's own `login` never does, so with it `thrown` is always None.
     */
    method HandleEmailLogin(auth: AuthProvider, email: string, password: string, thrown: Option<Option<string>>)
      modifies this, auth
      ensures !isLoading && navigation == old(navigation)
      ensures thrown.None? ==>
        error == "" && auth.user == Some(EmailUser(email)) && auth.Valid() && auth.storedUser == auth.user && auth.authCookie
        && auth.navigation == Some("/comunidade")
      ensures thrown.Some? ==> error == LoginErrorMessage(thrown.value) && error != "" && unchanged(auth)
    {
      BeginEmailLogin();
      if thrown.None? {
        auth.Login(email, password);
      }
      FinishEmailLogin(thrown);
      if thrown.Some? {
        ErrorMessageIsKnown(thrown.value);
      }
    }

    /** `handleGoogleLogin`: clear the error, sign in, or show the fixed Google text if that throws. */
    method HandleGoogleLogin(auth: AuthProvider, now: nat, throws: bool)
      modifies this, auth
      ensures isLoading == old(isLoading) && navigation == old(navigation)
      ensures throws ==> error == GoogleMessage && unchanged(auth)
      ensures !throws ==> error == "" && auth.Valid() && auth.user == Some(ProviderUser(now, "Usuário Google", "usuario@gmail.com"))
      ensures !throws ==> auth.storedUser == auth.user && auth.authCookie && auth.navigation == Some("/comunidade")
    {
      error := "";
      if throws {
        error := GoogleMessage;
      } else {
        auth.LoginWithGoogle(now);
      }
    }

    /** `handleAppleLogin`: the same with the Apple text. */
    method HandleAppleLogin(auth: AuthProvider, now: nat, throws: bool)
      modifies this, auth
      ensures isLoading == old(isLoading) && navigation == old(navigation)
      ensures throws ==> error == AppleMessage && unchanged(auth)
      ensures !throws ==> error == "" && auth.Valid() && auth.user == Some(ProviderUser(now, "Usuário Apple", "usuario@icloud.com"))
      ensures !throws ==> auth.storedUser == auth.user && auth.authCookie && auth.navigation == Some("/comunidade")
    {
      error := "";
      if throws {
        error := AppleMessage;
      } else {
        auth.LoginWithApple(now);
      }
    }
  }
}
