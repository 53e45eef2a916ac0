/**
 * The sign-in page: submits the credentials through the auth provider, turns what
 * `login` resolves or throws into the status banner, opens the 2FA code dialog when the
 * account has 2FA, and after a direct sign-in offers to set 2FA up.
 */
module IniciarSesion {
  import opened Common
  import opened Text
  import AuthContext
  import AxiosConfig

  /** The e-mail and password kept for the second, 2FA step. */
  datatype PendingCredentials = PendingCredentials(email: string, password: string)

  const WrongCredentials := "Correo electrónico o contraseña incorrectos"
  const VerifyEmailFirst := "Por favor verifica tu correo electrónico antes de iniciar sesión"
  const UnknownUser := "El usuario no existe en el sistema"
  const UnknownError := "Error desconocido. Inténtalo nuevamente"
  const Unauthorized := "Credenciales inválidas"
  const AccessDenied := "Acceso denegado. Tu cuenta podría no estar verificada"
  const ConnectionError := "Error de conexión. Verifica tu red o que el servidor esté en ejecución"
  const TwoFactorRequired := "Se requiere autenticación de dos factores"
  const LoginSucceeded := "¡Inicio de sesión exitoso!"
  const TwoFactorSucceeded := "¡Inicio de sesión exitoso con 2FA!"
  const InvalidCode := "Código 2FA inválido. Por favor intenta de nuevo."
  const RetryLogin := "Error al iniciar sesión. Por favor intenta de nuevo."
  const NoSession := "Error: No hay sesión activa. Intenta hacer login de nuevo."

  /** The message of the `TypeError` raised by reading `result.requires2FA` when `login` resolved `undefined`. */
  const TypeErrorOnUndefined := "Cannot read properties of undefined (reading 'requires2FA')"

  /** The message asks the user to verify the e-mail address first. */
  predicate AsksToVerify(message: string)
  {
    Contains(message, AuthContext.NotVerified) || Contains(message, "verifica tu correo")
  }

  /** The message holds one of the phrases the page rewords. */
  predicate Recognised(message: string)
  {
    Contains(message, AuthContext.InvalidCredentials) || AsksToVerify(message) || Contains(message, "no encontrado")
  }

  /**
   * The banner for an error whose `message` is non-empty: recognised phrases are reworded,
   * checked in the order wrong credentials, unverified e-mail, unknown user; any other
   * message is shown as it is.
   */
  function MessageStatus(message: string): (s: Status)
    requires message != ""
    ensures s.tone == Error || s.tone == Warning
    ensures s.message != ""
    ensures Contains(message, AuthContext.InvalidCredentials) ==> s == Status(Error, WrongCredentials)
    ensures !Contains(message, AuthContext.InvalidCredentials) && AsksToVerify(message) ==>
      s == Status(Warning, VerifyEmailFirst)
    ensures !Contains(message, AuthContext.InvalidCredentials) && !AsksToVerify(message) && Contains(message, "no encontrado") ==>
      s == Status(Error, UnknownUser)
    ensures !Recognised(message) ==> s == Status(Error, message)
    ensures s.tone == Warning <==> !Contains(message, AuthContext.InvalidCredentials) && AsksToVerify(message)
  {
    if Contains(message, AuthContext.InvalidCredentials) then Status(Error, WrongCredentials)
    else if Contains(message, AuthContext.NotVerified) || Contains(message, "verifica tu correo") then Status(Warning, VerifyEmailFirst)
    else if Contains(message, "no encontrado") then Status(Error, UnknownUser)
    else Status(Error, message)
  }

  /** The banner for the server's `error` code: its `message` when present, else a text per code. */
  function CodeStatus(code: string, message: Option<string>): (s: Status)
    ensures s.tone == Error || s.tone == Warning
    ensures s.message != ""
    ensures Truthy(message) ==> s.message == message.value
    ensures s.tone == Warning <==> code == "USER_NOT_VERIFIED"
  {
    if code == "USER_NOT_VERIFIED" then Status(Warning, OrElse(message, VerifyEmailFirst))
    else if code == "INVALID_CREDENTIALS" then Status(Error, OrElse(message, WrongCredentials))
    else if code == "USER_NOT_FOUND" then Status(Error, OrElse(message, UnknownUser))
    else Status(Error, OrElse(message, UnknownError))
  }

  /** The catch block of `handleLogin`: the banner for a failure with `message` and, possibly, a `response`. */
  function LoginFailureStatus(message: string, response: Option<ErrorResponse>): (s: Status)
    ensures s.tone == Error || s.tone == Warning
    ensures s.message != ""
    ensures message != "" ==> s == MessageStatus(message)
  {
    if message != "" then MessageStatus(message)
    else if response.Some? && Truthy(response.value.data.error) then
      CodeStatus(response.value.data.error.value, response.value.data.message)
    else if response.Some? && response.value.status == 401 then Status(Error, Unauthorized)
    else if response.Some? && response.value.status == 403 then Status(Warning, AccessDenied)
    else Status(Error, ConnectionError)
  }

  /** `login` asked for the second factor. */
  predicate AsksForCode(o: AuthContext.LoginOutcome)
  {
    o.Returned? && o.data.Some? && o.data.value.requires2FA && o.data.value.twoFactorEnabled
  }

  /** `login` resolved a successful sign-in that needs no code. */
  predicate SignsIn(o: AuthContext.LoginOutcome)
  {
    o.Returned? && o.data.Some? && !AsksForCode(o) && o.data.value.success
  }

  /** `login` threw, or resolved `undefined` so that reading its result threw. */
  predicate Fails(o: AuthContext.LoginOutcome)
  {
    o.Threw? || o.data.None?
  }

  /** The banner `handleLogin` leaves for what `login` resolved or threw. */
  function LoginBanner(o: AuthContext.LoginOutcome): (s: Status)
    ensures Fails(o) ==> s.tone == Error || s.tone == Warning
  {
    match o
    case Threw(m) => LoginFailureStatus(m, None)
    case Returned(None) => LoginFailureStatus(TypeErrorOnUndefined, None)
    case Returned(Some(d)) =>
      if d.requires2FA && d.twoFactorEnabled then Status(Info, TwoFactorRequired)
      else if d.success then Status(Success, LoginSucceeded)
      else Cleared
  }

  /** The code dialog opens exactly when the server asked for a code and also sent a token. */
  lemma CodeDialogNeedsToken(reply: HttpResult<AuthContext.LoginData>)
    ensures LoginBanner(AuthContext.LoginResult(reply)).tone == Info <==>
      reply.Ok? && Truthy(reply.data.token) && reply.data.requires2FA && reply.data.twoFactorEnabled
  {
    var o := AuthContext.LoginResult(reply);
    if Fails(o) {
      assert LoginBanner(o).tone != Info;
    }
  }

  /** The success banner appears exactly for a token-bearing reply that reports success and asks for no code. */
  lemma SuccessBannerNeedsToken(reply: HttpResult<AuthContext.LoginData>)
    ensures LoginBanner(AuthContext.LoginResult(reply)).tone == Success <==>
      reply.Ok? && Truthy(reply.data.token) && reply.data.success &&
      !(reply.data.requires2FA && reply.data.twoFactorEnabled)
  {
    var o := AuthContext.LoginResult(reply);
    if Fails(o) {
      assert LoginBanner(o).tone != Success;
    }
  }

  /** A 401 from the server reaches the page as the provider's message and is reworded. */
  lemma UnauthorizedBanner(e: HttpError)
    requires HasStatus(e, 401)
    ensures LoginBanner(AuthContext.LoginResult(Err(e))) == Status(Error, WrongCredentials)
  {
    assert StartsWith(AuthContext.InvalidCredentials, AuthContext.InvalidCredentials);
  }

  /** A 403 from the server is shown as a request to verify the e-mail address first. */
  lemma ForbiddenBanner(e: HttpError)
    requires HasStatus(e, 403)
    ensures LoginBanner(AuthContext.LoginResult(Err(e))) == Status(Warning, VerifyEmailFirst)
  {
    ContainsTooLong(AuthContext.NotVerified, AuthContext.InvalidCredentials);
    assert StartsWith(AuthContext.NotVerified, AuthContext.NotVerified);
  }

  lemma ServerFailureLacksVerifyPhrase()
    ensures !Contains(AuthContext.ServerFailure, "verifica tu correo")
  {
    LacksChar(AuthContext.ServerFailure, "verifica tu correo", 4);
  }

  lemma ServerFailureLacksNotFoundPhrase()
    ensures !Contains(AuthContext.ServerFailure, "no encontrado")
  {
    LacksChar(AuthContext.ServerFailure, "no encontrado", 5);
  }

  /** When the server is not reached, the provider's generic text is shown unchanged. */
  lemma UnreachableServerBanner(e: HttpError)
    requires e.response.None?
    ensures LoginBanner(AuthContext.LoginResult(Err(e))) == Status(Error, AuthContext.ServerFailure)
  {
    ContainsTooLong(AuthContext.ServerFailure, AuthContext.InvalidCredentials);
    ContainsTooLong(AuthContext.ServerFailure, AuthContext.NotVerified);
    ServerFailureLacksVerifyPhrase();
    ServerFailureLacksNotFoundPhrase();
  }

  /** A reply without a token ends in the `TypeError`, which is shown through the message branch. */
  lemma TokenlessReplyBanner(reply: HttpResult<AuthContext.LoginData>)
    requires reply.Ok? && !Truthy(reply.data.token)
    ensures LoginBanner(AuthContext.LoginResult(reply)) == MessageStatus(TypeErrorOnUndefined)
  {
  }

  /** Any other rejection that carries a server message is shown through the message branch. */
  lemma ServerMessageBanner(e: HttpError)
    requires !HasStatus(e, 401) && !HasStatus(e, 403) && Truthy(ServerMessage(e))
    ensures LoginBanner(AuthContext.LoginResult(Err(e))) == MessageStatus(ServerMessage(e).value)
  {
  }

  /** A server message saying the user was not found, such as a 404's, becomes the unknown-user error. */
  lemma NotFoundBanner(e: HttpError)
    requires !HasStatus(e, 401) && !HasStatus(e, 403) && ServerMessage(e) == Some(UserNotFound)
    ensures LoginBanner(AuthContext.LoginResult(Err(e))) == Status(Error, UnknownUser)
  {
    ServerMessageBanner(e);
    NotFoundPhrases();
  }

  const UserNotFound := "Usuario no encontrado"

  /** Of the recognised phrases, "Usuario no encontrado" holds only "no encontrado". */
  lemma NotFoundPhrases()
    ensures !Contains(UserNotFound, AuthContext.InvalidCredentials) && !AsksToVerify(UserNotFound)
    ensures Contains(UserNotFound, "no encontrado")
  {
    ContainsTooLong(UserNotFound, AuthContext.InvalidCredentials);
    NotFoundLacksNotVerified();
    NotFoundLacksVerifyPhrase();
    NotFoundHasPhrase();
  }

  lemma NotFoundLacksNotVerified()
    ensures !Contains(UserNotFound, AuthContext.NotVerified)
  {
    LacksChar(UserNotFound, AuthContext.NotVerified, 11);
  }

  lemma NotFoundLacksVerifyPhrase()
    ensures !Contains(UserNotFound, "verifica tu correo")
  {
    LacksChar(UserNotFound, "verifica tu correo", 0);
  }

  lemma NotFoundHasPhrase()
    ensures Contains(UserNotFound, "no encontrado")
  {
    assert UserNotFound[8..] == "no encontrado";
    ContainsSuffix(UserNotFound, 8, "no encontrado");
  }

  /**
   * `login` only ever throws a non-empty message, so every failed sign-in is worded by
   * `MessageStatus`; the per-code, 401, 403 and connection texts of the catch block are
   * never reached from this page.
   */
  lemma FailuresUseMessage(reply: HttpResult<AuthContext.LoginData>)
    ensures var o := AuthContext.LoginResult(reply);
      Fails(o) ==> LoginBanner(o) == MessageStatus(if o.Threw? then o.message else TypeErrorOnUndefined)
  {
  }

  /** What `handle2FALoginVerify` throws back to the code dialog, or none when the sign-in completed. */
  function VerifyFailure(o: AuthContext.LoginOutcome): (thrown: Option<string>)
    ensures thrown.None? <==> o.Returned? && o.data.Some? && o.data.value.success
    ensures o.Threw? ==> thrown == Some(o.message)
    ensures o.Returned? && o.data.Some? && !o.data.value.success && o.data.value.requires2FA ==> thrown == Some(InvalidCode)
    ensures o.Returned? && !(o.data.Some? && (o.data.value.success || o.data.value.requires2FA)) ==> thrown == Some(RetryLogin)
    ensures o.Returned? && thrown.Some? ==> thrown.value != ""
  {
    match o
    case Threw(m) => Some(m)
    case Returned(r) =>
      if r.Some? && r.value.success then None
      else if r.Some? && r.value.requires2FA then Some(InvalidCode)
      else Some(RetryLogin)
  }

  /** Every failure of the code step reaches the dialog with a non-empty message. */
  lemma VerifyFailureHasMessage(reply: HttpResult<AuthContext.LoginData>)
    ensures VerifyFailure(AuthContext.LoginResult(reply)).Some? ==> VerifyFailure(AuthContext.LoginResult(reply)).value != ""
  {
  }

  /** The code is accepted only on a reply that carries a token and says success. */
  lemma VerifyAcceptsOnlyTokens(reply: HttpResult<AuthContext.LoginData>)
    ensures VerifyFailure(AuthContext.LoginResult(reply)).None? <==>
      reply.Ok? && Truthy(reply.data.token) && reply.data.success
  {
  }

  class LoginPage {
    var email: string
    var password: string
    var status: Status
    var isLoading: bool
    var isLoadingComplete: bool
    var showTwoFactorPrompt: bool
    var show2FALoginModal: bool
    var pendingCredentials: Option<PendingCredentials>
    var navigations: seq<Navigation>
    const auth: AuthContext.AuthProvider

    constructor (auth: AuthContext.AuthProvider)
      ensures this.auth == auth && email == "" && password == "" && status == Cleared
      ensures !isLoading && !isLoadingComplete && !showTwoFactorPrompt && !show2FALoginModal
      ensures pendingCredentials == None && navigations == []
    {
      this.auth := auth;
      email, password := "", "";
      status := Cleared;
      isLoading, isLoadingComplete := false, false;
      showTwoFactorPrompt, show2FALoginModal := false, false;
      pendingCredentials := None;
      navigations := [];
    }

    /** The submit button is disabled while loading and while the 2FA offer is shown. */
    predicate SubmitDisabled()
      reads this
    {
      isLoading || showTwoFactorPrompt
    }

    /** The effect on the query string: after registration, greet the new account and prefill its e-mail. */
    method ApplySearchParams(registered: Option<string>, emailParam: Option<string>)
      modifies this`status, this`email
      ensures registered == Some("true") ==>
        status == Status(Success, "¡Cuenta creada exitosamente con " + (if emailParam.Some? then emailParam.value else "null") + "! Ahora puedes iniciar sesión.")
        && email == OrElse(emailParam, "")
      ensures registered != Some("true") ==> status == old(status) && email == old(email)
    {
      if registered == Some("true") {
        status := Status(Success, "¡Cuenta creada exitosamente con " + (if emailParam.Some? then emailParam.value else "null") + "! Ahora puedes iniciar sesión.");
        email := OrElse(emailParam, "");
      }
    }

    method SetEmail(value: string)
      modifies this`email
      ensures email == value
    {
      email := value;
    }

    method SetPassword(value: string)
      modifies this`password
      ensures password == value
    {
      password := value;
    }

    /** `handleLogin`: sign in with the typed credentials; the server answers `reply`. */
    method HandleLogin(reply: HttpResult<AuthContext.LoginData>)
      modifies this`status, this`isLoading, this`isLoadingComplete, this`showTwoFactorPrompt, this`show2FALoginModal,
        this`pendingCredentials, this`navigations, auth, auth.storage
      ensures var o := AuthContext.LoginResult(reply);
        && status == LoginBanner(o)
        && isLoading == !(Fails(o) || AsksForCode(o))
        && isLoadingComplete == SignsIn(o)
        && show2FALoginModal == AsksForCode(o)
        && showTwoFactorPrompt == (SignsIn(o) && old(pendingCredentials).None?)
        && pendingCredentials == (if AsksForCode(o) then Some(PendingCredentials(email, password)) else old(pendingCredentials))
        && navigations == old(navigations) + (if SignsIn(o) && old(pendingCredentials).Some? then [Navigation("/", None)] else [])
      ensures reply.Ok? && Truthy(reply.data.token) ==> auth.IsAuthenticated()
    {
      status := Cleared;
      showTwoFactorPrompt := false;
      show2FALoginModal := false;
      isLoading := true;
      isLoadingComplete := false;
      var outcome := auth.Login(AuthContext.Credentials(email, password, None), reply);
      ShowLoginOutcome(outcome);
    }

    /** The part of `handleLogin` after `login` settles with `o`, from the state it set up before the call. */
    method ShowLoginOutcome(o: AuthContext.LoginOutcome)
      requires status == Cleared && !showTwoFactorPrompt && !show2FALoginModal && isLoading && !isLoadingComplete
      modifies this`status, this`isLoading, this`isLoadingComplete, this`showTwoFactorPrompt, this`show2FALoginModal,
        this`pendingCredentials, this`navigations
      ensures status == LoginBanner(o)
      ensures isLoading == !(Fails(o) || AsksForCode(o))
      ensures isLoadingComplete == SignsIn(o)
      ensures show2FALoginModal == AsksForCode(o)
      ensures showTwoFactorPrompt == (SignsIn(o) && old(pendingCredentials).None?)
      ensures pendingCredentials == (if AsksForCode(o) then Some(PendingCredentials(email, password)) else old(pendingCredentials))
      ensures navigations == old(navigations) + (if SignsIn(o) && old(pendingCredentials).Some? then [Navigation("/", None)] else [])
    {
      match o {
        case Threw(m) =>
          isLoading := false;
          status := LoginFailureStatus(m, None);
        case Returned(None) =>
          isLoading := false;
          status := LoginFailureStatus(TypeErrorOnUndefined, None);
        case Returned(Some(d)) =>
          if d.requires2FA && d.twoFactorEnabled {
            isLoading := false;
            pendingCredentials := Some(PendingCredentials(email, password));
            show2FALoginModal := true;
            status := Status(Info, TwoFactorRequired);
          } else if d.success {
            isLoadingComplete := true;
            status := Status(Success, LoginSucceeded);
            if pendingCredentials.None? {
              showTwoFactorPrompt := true;
            } else {
              navigations := navigations + [Navigation("/", None)];
            }
          }
      }
    }

    /** The loading screen's `onComplete`. */
    method LoadingScreenDone()
      modifies this`isLoading
      ensures !isLoading
    {
      isLoading := false;
    }

    /**
     * `handle2FALoginVerify`: repeat the sign-in with the kept credentials and `code`; the
     * server answers `reply`. Returns the message it throws, if any.
     */
    method Handle2FALoginVerify(code: string, reply: HttpResult<AuthContext.LoginData>) returns (thrown: Option<string>)
      modifies this`status, this`isLoading, this`isLoadingComplete, this`show2FALoginModal, this`pendingCredentials
      modifies this`navigations, auth, auth.storage
      ensures old(pendingCredentials).None? ==>
        thrown == None && status == old(status) && isLoading == old(isLoading) && isLoadingComplete == old(isLoadingComplete) &&
        show2FALoginModal == old(show2FALoginModal) && pendingCredentials == None &&
        navigations == old(navigations) && auth.storage.items == old(auth.storage.items) && auth.user == old(auth.user)
      ensures auth.loading == old(auth.loading)
      ensures old(pendingCredentials).Some? && reply.Ok? && Truthy(reply.data.token) ==>
        auth.user == Some(AuthContext.UserOf(reply.data)) &&
        auth.storage.items == old(auth.storage.items)[TokenKey := reply.data.token.value]
      ensures old(pendingCredentials).Some? && reply.Ok? && !Truthy(reply.data.token) ==>
        auth.user == old(auth.user) && auth.storage.items == old(auth.storage.items)
      ensures old(pendingCredentials).Some? && reply.Err? ==>
        auth.user == old(auth.user) && auth.storage.items == AxiosConfig.StorageAfterReply(old(auth.storage.items), reply)
      ensures old(pendingCredentials).Some? ==>
        var o := AuthContext.LoginResult(reply);
        && thrown == VerifyFailure(o)
        && (thrown.None? ==> auth.IsAuthenticated())
        && (thrown.None? ==>
              !show2FALoginModal && pendingCredentials == None && isLoadingComplete && isLoading &&
              status == Status(Success, TwoFactorSucceeded) && navigations == old(navigations) + [Navigation("/", None)])
        && (thrown.Some? ==>
              !isLoading && status == Cleared && pendingCredentials == old(pendingCredentials) &&
              isLoadingComplete == old(isLoadingComplete) &&
              show2FALoginModal == old(show2FALoginModal) && navigations == old(navigations))
    {
      if pendingCredentials.None? {
        thrown := None;
        return;
      }
      var pending := pendingCredentials.value;
      isLoading := true;
      status := Cleared;
      var outcome := auth.Login(AuthContext.Credentials(pending.email, pending.password, Some(code)), reply);
      match outcome {
        case Threw(m) =>
          isLoading := false;
          thrown := Some(m);
        case Returned(r) =>
          if r.Some? && r.value.success {
            show2FALoginModal := false;
            pendingCredentials := None;
            isLoadingComplete := true;
            status := Status(Success, TwoFactorSucceeded);
            navigations := navigations + [Navigation("/", None)];
            thrown := None;
          } else if r.Some? && r.value.requires2FA {
            isLoading := false;
            thrown := Some(InvalidCode);
          } else {
            isLoading := false;
            thrown := Some(RetryLogin);
          }
      }
    }

    /** `handleTwoFactorChoice`: go to 2FA set-up (only with a stored token) or skip to the home page. */
    method HandleTwoFactorChoice(option: string)
      modifies this`showTwoFactorPrompt, this`status, this`navigations
      ensures !showTwoFactorPrompt
      ensures option == "google" && !Truthy(auth.storage.GetItem(TokenKey)) ==>
        status == Status(Error, NoSession) && navigations == old(navigations)
      ensures option == "google" && Truthy(auth.storage.GetItem(TokenKey)) ==>
        status == old(status) && navigations == old(navigations) + [Navigation("/configurar-2fa", Some(email))]
      ensures option != "google" ==> status == old(status) && navigations == old(navigations) + [Navigation("/", None)]
    {
      showTwoFactorPrompt := false;
      if option == "google" {
        var token := auth.storage.GetItem(TokenKey);
        if !Truthy(token) {
          status := Status(Error, NoSession);
          return;
        }
        navigations := navigations + [Navigation("/configurar-2fa", Some(email))];
      } else {
        navigations := navigations + [Navigation("/", None)];
      }
    }

    /** The code dialog's `onClose`: close it and forget the kept credentials. */
    method CloseCodeDialog()
      modifies this`show2FALoginModal, this`pendingCredentials
      ensures !show2FALoginModal && pendingCredentials == None
    {
      show2FALoginModal := false;
      pendingCredentials := None;
    }
  }
}
