/**
 * The e-mail confirmation callback: from the parameters of the URL fragment
 * and the result of the session lookup, the page picks a status, a message,
 * and a page to go to after a delay.
 */
module EmailConfirmation {
  import opened Common

  datatype Status = Loading | Success | Error

  /** The parameters read from the fragment; `None` is a missing parameter. */
  datatype Params = Params(accessToken: Option<string>, kind: Option<string>, error: Option<string>, errorDescription: Option<string>)

  /** How `getSession` answered, or that something in the handler threw. */
  datatype SessionLookup = Threw | LookupError | NoSession | HasSession

  /** What the handler ends with: the status and message shown and the timed redirect. */
  datatype Outcome = Outcome(status: Status, message: string, redirect: string, delayMs: nat)

  const ExpiredMessage: string := "Link de confirmação expirado. Solicite um novo link de confirmação."
  const ConfirmErrorMessage: string := "Erro ao confirmar e-mail. Tente novamente."
  const SessionErrorMessage: string := "Erro ao confirmar e-mail. Tente fazer login."
  const ConfirmedMessage: string := "E-mail confirmado com sucesso! Redirecionando..."
  const ConfirmedNoSessionMessage: string := "E-mail confirmado! Faça login para continuar."
  const InvalidLinkMessage: string := "Link inválido. Redirecionando para login..."
  const UnexpectedMessage: string := "Erro inesperado. Tente fazer login."

  predicate IsConfirmationKind(kind: Option<string>)
  {
    kind == Some("signup") || kind == Some("email")
  }

  /** The message for an error in the URL: the expired-link text, the description, or a default. */
  function ErrorParamMessage(error: string, description: Option<string>): (m: string)
    ensures error == "access_denied" && description.Some? && Contains(description.value, "expired") ==> m == ExpiredMessage
    ensures !(error == "access_denied" && description.Some? && Contains(description.value, "expired")) ==>
      (Truthy(description) ==> m == description.value) && (!Truthy(description) ==> m == ConfirmErrorMessage)
  {
    if error == "access_denied" && description.Some? && Contains(description.value, "expired") then ExpiredMessage
    else if Truthy(description) then description.value
    else ConfirmErrorMessage
  }

  /** `handleEmailConfirmation` as a decision table. */
  function Confirm(p: Params, session: SessionLookup): (o: Outcome)
    ensures Truthy(p.error) ==>
      o == Outcome(Error, ErrorParamMessage(p.error.value, p.errorDescription), "/login", 5000)
    ensures !Truthy(p.error) && !IsConfirmationKind(p.kind) ==>
      o == Outcome(Error, InvalidLinkMessage, "/login", 3000)
    ensures !Truthy(p.error) && IsConfirmationKind(p.kind) ==>
      o == match session
        case Threw => Outcome(Error, UnexpectedMessage, "/login", 3000)
        case LookupError => Outcome(Error, SessionErrorMessage, "/login", 3000)
        case HasSession => Outcome(Success, ConfirmedMessage, "/comunidade", 2000)
        case NoSession => Outcome(Success, ConfirmedNoSessionMessage, "/login", 3000)
  {
    match p.error
    case Some(e) =>
      if e != "" then Outcome(Error, ErrorParamMessage(e, p.errorDescription), "/login", 5000)
      else ByKind(p.kind, session)
    case None => ByKind(p.kind, session)
  }

  /** The part after the error test: only the two confirmation kinds look at the session. */
  function ByKind(kind: Option<string>, session: SessionLookup): Outcome
  {
    if kind == Some("signup") || kind == Some("email") then
      match session
      case Threw => Outcome(Error, UnexpectedMessage, "/login", 3000)
      case LookupError => Outcome(Error, SessionErrorMessage, "/login", 3000)
      case HasSession => Outcome(Success, ConfirmedMessage, "/comunidade", 2000)
      case NoSession => Outcome(Success, ConfirmedNoSessionMessage, "/login", 3000)
    else Outcome(Error, InvalidLinkMessage, "/login", 3000)
  }

  /** The access token is read but never decides anything. */
  lemma AccessTokenIgnored(p: Params, token: Option<string>, session: SessionLookup)
    ensures Confirm(p.(accessToken := token), session) == Confirm(p, session)
  {
  }

  /** An error parameter wins over every type and every session. */
  lemma ErrorWins(p: Params, session: SessionLookup, other: SessionLookup)
    requires Truthy(p.error)
    ensures Confirm(p, session) == Confirm(p, other)
    ensures Confirm(p, session).status == Error && Confirm(p, session).delayMs == 5000
  {
  }

  /** Only a confirmation link with a live session leads to the feed; every other outcome goes to login. */
  lemma FeedOnlyWithSession(p: Params, session: SessionLookup)
    ensures var o := Confirm(p, session);
      (o.redirect == "/comunidade" <==> !Truthy(p.error) && IsConfirmationKind(p.kind) && session == HasSession)
      && (o.redirect != "/comunidade" ==> o.redirect == "/login")
  {
  }

  /** Success means a confirmation link without an error and with an answered lookup. */
  lemma SuccessMeansConfirmed(p: Params, session: SessionLookup)
    ensures Confirm(p, session).status == Success <==>
      !Truthy(p.error) && IsConfirmationKind(p.kind) && (session == HasSession || session == NoSession)
    ensures Confirm(p, session).status != Loading
  {
  }

  /** An empty `error` counts as no error, so the link is judged by its type. */
  lemma EmptyErrorIsNoError(p: Params, session: SessionLookup)
    requires p.error == Some("")
    ensures Confirm(p, session) == Confirm(p.(error := None), session)
  {
  }

  /** An access_denied error whose description mentions expiry always gives the expired-link text. */
  lemma ExpiredLink(before: string, after: string, p: Params, session: SessionLookup)
    requires p.error == Some("access_denied") && p.errorDescription == Some(before + "expired" + after)
    ensures Confirm(p, session).message == ExpiredMessage
  {
    ContainsWrapped(before, "expired", after);
  }

  class CallbackPage {
    var status: Status
    var message: string
    /** The redirect handed to the timer, with its delay. */
    var scheduled: Option<(string, nat)>

    constructor ()
      ensures status == Loading && message == "" && scheduled == None
    {
      status := Loading;
      message := "";
      scheduled := None;
    }

    /** The mount effect: set the status and message, then schedule the redirect. */
    method HandleEmailConfirmation(p: Params, session: SessionLookup)
      modifies this
      ensures var o := Confirm(p, session);
        status == o.status && message == o.message && scheduled == Some((o.redirect, o.delayMs))
      ensures status != Loading
    {
      var o := Confirm(p, session);
      status := o.status;
      message := o.message;
      scheduled := Some((o.redirect, o.delayMs));
      SuccessMeansConfirmed(p, session);
    }
  }
}
