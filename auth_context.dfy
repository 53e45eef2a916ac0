/**
 * The authentication provider: the signed-in `user`, the `loading` flag of the start-up
 * check, and the token in local storage. Server replies are inputs; each passes through
 * the client's response interceptor before the provider sees it.
 */
module AuthContext {
  import opened Common
  import AxiosConfig

  /** The user record the backend returns; any field may be missing. */
  datatype User = User(
    email_usuario: Option<string>,
    nombre_usuario: Option<string>,
    numero_telefono: Option<string>,
    numero_identificacion: Option<string>)

  /** The body `POST /auth/login` sends: the credentials, and the code on the second, 2FA step. */
  datatype Credentials = Credentials(email_usuario: string, password_usuario: string, twoFactorCode: Option<string>)

  /** The body of a successful `POST /auth/login` reply; absent flags read as false. */
  datatype LoginData = LoginData(
    token: Option<string>,
    email: Option<string>,
    nombre: Option<string>,
    success: bool,
    requires2FA: bool,
    twoFactorEnabled: bool)

  /** What `login` hands its caller: a resolved value (`undefined` when no token came back) or a thrown `Error`. */
  datatype LoginOutcome = Returned(data: Option<LoginData>) | Threw(message: string)

  const InvalidCredentials := "Credenciales inválidas"
  const NotVerified := "Usuario no verificado"
  const ServerFailure := "Error en el servidor"

  /** The message of the `Error` that `login` throws for a rejected request. */
  function LoginErrorMessage(e: HttpError): (m: string)
    ensures m != ""
    ensures HasStatus(e, 401) ==> m == InvalidCredentials
    ensures HasStatus(e, 403) ==> m == NotVerified
    ensures !HasStatus(e, 401) && !HasStatus(e, 403) ==>
      (Truthy(ServerMessage(e)) ==> m == ServerMessage(e).value) &&
      (!Truthy(ServerMessage(e)) ==> m == ServerFailure)
  {
    if HasStatus(e, 401) then InvalidCredentials
    else if HasStatus(e, 403) then NotVerified
    else if Truthy(ServerMessage(e)) then ServerMessage(e).value
    else ServerFailure
  }

  /** What `login` resolves or throws for the server's `reply`. */
  function LoginResult(reply: HttpResult<LoginData>): (r: LoginOutcome)
    ensures r.Returned? <==> reply.Ok?
    ensures r.Returned? ==> (r.data.Some? <==> Truthy(reply.data.token))
    ensures r.Returned? && r.data.Some? ==> r.data.value == reply.data
    ensures r.Threw? ==> r.message != ""
  {
    match reply
    case Ok(data) => Returned(if Truthy(data.token) then Some(data) else None)
    case Err(e) => Threw(LoginErrorMessage(e))
  }

  /** The user `login` records: only the e-mail and name of the reply. */
  function UserOf(data: LoginData): (u: User)
    ensures u.email_usuario == data.email && u.nombre_usuario == data.nombre
    ensures u.numero_telefono == None && u.numero_identificacion == None
  {
    User(data.email, data.nombre, None, None)
  }

  class AuthProvider {
    var user: Option<User>
    var loading: bool
    const storage: LocalStorage

    constructor (storage: LocalStorage)
      ensures this.storage == storage && user == None && loading
    {
      this.storage := storage;
      user := None;
      loading := true;
    }

    /** `isAuthenticated()`: a user is recorded and a non-empty token is stored. */
    predicate IsAuthenticated()
      reads this, storage
    {
      user.Some? && Truthy(storage.GetItem(TokenKey))
    }

    /** The start-up effect: check a stored token against the server (`reply`), or stop loading. */
    method Mount(reply: HttpResult<User>)
      modifies this, storage
      ensures !loading
      ensures Truthy(old(storage.GetItem(TokenKey))) && reply.Ok? ==> user == Some(reply.data) && storage.items == old(storage.items)
      ensures Truthy(old(storage.GetItem(TokenKey))) && reply.Err? ==> user == None && storage.items == old(storage.items) - {TokenKey}
      ensures !Truthy(old(storage.GetItem(TokenKey))) ==> user == old(user) && storage.items == old(storage.items)
    {
      var token := storage.GetItem(TokenKey);
      if Truthy(token) {
        CheckAuth(reply);
      } else {
        loading := false;
      }
    }

    /** `checkAuth`: `GET /auth/user`; keep the returned user, or drop the token and the user. */
    method CheckAuth(reply: HttpResult<User>)
      modifies this, storage
      ensures !loading
      ensures reply.Ok? ==> user == Some(reply.data) && storage.items == old(storage.items)
      ensures reply.Err? ==> user == None && storage.items == old(storage.items) - {TokenKey}
      ensures reply.Err? ==> !IsAuthenticated()
    {
      var r := AxiosConfig.InterceptResponse(storage, reply);
      match r {
        case Ok(data) =>
          user := Some(data);
        case Err(_) =>
          storage.RemoveItem(TokenKey);
          user := None;
      }
      loading := false;
    }

    /** `login`: `POST /auth/login` with `credentials`; the server answers `reply`. */
    method Login(credentials: Credentials, reply: HttpResult<LoginData>) returns (outcome: LoginOutcome)
      modifies this, storage
      ensures outcome == LoginResult(reply)
      ensures loading == old(loading)
      ensures reply.Ok? && Truthy(reply.data.token) ==>
        user == Some(UserOf(reply.data)) &&
        storage.items == old(storage.items)[TokenKey := reply.data.token.value] &&
        IsAuthenticated()
      ensures reply.Ok? && !Truthy(reply.data.token) ==> user == old(user) && storage.items == old(storage.items)
      ensures reply.Err? ==> user == old(user) && storage.items == AxiosConfig.StorageAfterReply(old(storage.items), reply)
    {
      var r := AxiosConfig.InterceptResponse(storage, reply);
      match r
      case Ok(data) =>
        if Truthy(data.token) {
          storage.SetItem(TokenKey, data.token.value);
          user := Some(UserOf(data));
          outcome := Returned(Some(data));
        } else {
          outcome := Returned(None);
        }
      case Err(e) =>
        outcome := Threw(LoginErrorMessage(e));
    }

    /** `logout`: forget the token and the user. The cart is left as it is. */
    method Logout()
      modifies this, storage
      ensures user == None && storage.items == old(storage.items) - {TokenKey}
      ensures loading == old(loading)
      ensures !IsAuthenticated()
    {
      storage.RemoveItem(TokenKey);
      user := None;
    }
  }
}
