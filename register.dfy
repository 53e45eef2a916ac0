/**
 * The registration form: three length-limited fields, a single error line that warns
 * when a field reaches its limit, and a submit that registers the account and moves on
 * to e-mail verification.
 */
module Register {
  import opened Common
  import opened Text

  datatype Field = Username | Email | Password

  /** The form's values, named as the backend expects them. */
  datatype NewUser = NewUser(nombre_usuario: string, email_usuario: string, password_usuario: string)
  {
    function Get(f: Field): string
    {
      match f
      case Username => nombre_usuario
      case Email => email_usuario
      case Password => password_usuario
    }

    function With(f: Field, value: string): (u: NewUser)
      ensures u.Get(f) == value
    {
      match f
      case Username => this.(nombre_usuario := value)
      case Email => this.(email_usuario := value)
      case Password => this.(password_usuario := value)
    }
  }

  function MaxLength(f: Field): nat
  {
    match f
    case Username => 20
    case Email => 50
    case Password => 20
  }

  /** The error for a value longer than the field allows. */
  function OverLimitMessage(f: Field): (m: string)
    ensures 40 <= |m| <= 51
    ensures |m| == match f case Username => 51 case Email => 40 case Password => 44
  {
    match f
    case Username => "El nombre de usuario no puede superar 20 caracteres"
    case Email => "El correo no puede superar 50 caracteres"
    case Password => "La contraseña no puede superar 20 caracteres"
  }

  /** The notice for a value that has just reached the field's limit. */
  function LimitMessage(f: Field): (m: string)
    ensures 59 <= |m| <= 67
    ensures |m| == match f case Username => 66 case Email => 67 case Password => 59
  {
    match f
    case Username => "Has alcanzado el máximo de 20 caracteres para el nombre de usuario"
    case Email => "Has alcanzado el máximo de 50 caracteres para el correo electrónico"
    case Password => "Has alcanzado el máximo de 20 caracteres para la contraseña"
  }

  const AlreadyRegistered := "Este correo electrónico ya está registrado"
  const RegistrationFailed := "Error al registrar usuario"
  const ServiceFailure := "Error en el registro"

  /** An over-limit text is never a limit notice: the former are shorter. */
  lemma OverLimitIsNotLimit(f: Field, g: Field)
    ensures OverLimitMessage(f) != LimitMessage(g)
  {
  }

  /** Each field has its own over-limit text. */
  lemma OverLimitMessagesDistinct(f: Field, g: Field)
    ensures OverLimitMessage(f) == OverLimitMessage(g) <==> f == g
  {
    if f != g {
      assert |OverLimitMessage(f)| != |OverLimitMessage(g)|;
    }
  }

  /** Each field has its own limit notice. */
  lemma LimitMessagesDistinct(f: Field, g: Field)
    ensures LimitMessage(f) == LimitMessage(g) <==> f == g
  {
    if f != g {
      assert |LimitMessage(f)| != |LimitMessage(g)|;
    }
  }

  /**
   * The error line after `handleChange` sets field `f` from `current` to `value`, given
   * the error line `error` of the render the handler belongs to. Lengths are JavaScript's,
   * in UTF-16 code units.
   */
  function ErrorAfterChange(error: string, f: Field, current: string, value: string): (r: string)
    ensures JsLength(value) > MaxLength(f) ==> r == OverLimitMessage(f)
    ensures JsLength(value) == MaxLength(f) && JsLength(current) < MaxLength(f) ==> r == LimitMessage(f)
  {
    if JsLength(value) > MaxLength(f) then OverLimitMessage(f)
    else
      var kept := if error == OverLimitMessage(f) then "" else error;
      if JsLength(value) == MaxLength(f) && JsLength(current) < MaxLength(f) then LimitMessage(f)
      else if error == LimitMessage(f) && JsLength(value) < MaxLength(f) then ""
      else kept
  }

  /** An accepted change of a field removes that field's own over-limit and (below the limit) limit messages. */
  lemma ChangeClearsOwnMessages(error: string, f: Field, current: string, value: string)
    requires JsLength(value) <= MaxLength(f)
    ensures var r := ErrorAfterChange(error, f, current, value);
      r != OverLimitMessage(f) &&
      (JsLength(value) < MaxLength(f) ==> r != LimitMessage(f)) &&
      (r == "" || r == error || r == LimitMessage(f))
  {
    OverLimitIsNotLimit(f, f);
  }

  /** Another field's notice survives: a change of `f` leaves an unrelated error line as it was. */
  lemma ChangeKeepsOtherNotice(error: string, f: Field, g: Field, current: string, value: string)
    requires f != g && error == LimitMessage(g)
    requires JsLength(value) <= MaxLength(f) && !(JsLength(value) == MaxLength(f) && JsLength(current) < MaxLength(f))
    ensures ErrorAfterChange(error, f, current, value) == error
  {
    LimitMessagesDistinct(f, g);
    OverLimitIsNotLimit(f, g);
    assert error != OverLimitMessage(f) && error != LimitMessage(f);
  }

  /**
   * Length is counted in UTF-16 code units: eleven characters above U+FFFF, such as emoji,
   * already exceed the 20-unit user-name limit.
   */
  lemma WideUsernameOverLimit(error: string, current: string, value: string)
    requires |value| == 11 && forall i :: 0 <= i < |value| ==> value[i] as int > 0xFFFF
    ensures ErrorAfterChange(error, Username, current, value) == OverLimitMessage(Username)
    ensures FirstOverLimit(NewUser(value, "", "")) == Some(Username)
  {
    JsLengthWide(value);
  }

  /** A rejected registration body, when the server answered at all. */
  datatype FailedResponse = FailedResponse(status: int, body: RegisterBody, message: Option<string>)

  /** The fields of the registration body that decide success; `id` is falsy when missing or 0. */
  datatype RegisterBody = RegisterBody(success: bool, id: Option<int>, usuario: bool)

  /** The server's answer to `POST /register`. */
  datatype RegisterReply = Created(body: RegisterBody) | Failed(response: Option<FailedResponse>)

  /** What the user service resolves or throws for a reply: a 500 that still carries the user counts as resolved. */
  datatype RegisterOutcome = Resolved(body: RegisterBody) | Rejected(status: Option<int>, message: string)

  function RegisterUser(reply: RegisterReply): (r: RegisterOutcome)
    ensures r.Rejected? ==> r.message != ""
    ensures r.Resolved? <==> reply.Created? || (reply.response.Some? && reply.response.value.status == 500 && reply.response.value.body.usuario)
  {
    match reply
    case Created(b) => Resolved(b)
    case Failed(None) => Rejected(None, ServiceFailure)
    case Failed(Some(fr)) =>
      if fr.status == 500 && fr.body.usuario then Resolved(fr.body)
      else Rejected(Some(fr.status), OrElse(fr.message, ServiceFailure))
  }

  predicate Accepted(b: RegisterBody)
  {
    b.success || (b.id.Some? && b.id.value != 0) || b.usuario
  }

  /** The error line after a failed registration: the 409 text, else the thrown message, else a fallback. */
  function RegistrationError(o: RegisterOutcome): (m: string)
    requires o.Rejected?
    ensures m != ""
    ensures o.status == Some(409) ==> m == AlreadyRegistered
    ensures o.status != Some(409) && o.message != "" ==> m == o.message
  {
    if o.status == Some(409) then AlreadyRegistered
    else if o.message != "" then o.message
    else RegistrationFailed
  }

  /** The user service always throws a message, so the page's own fallback text is never shown. */
  lemma RegistrationErrorFromService(reply: RegisterReply)
    requires RegisterUser(reply).Rejected?
    ensures var o := RegisterUser(reply);
      RegistrationError(o) == (if o.status == Some(409) then AlreadyRegistered else o.message)
  {
  }

  /** Every field is within its limit. */
  predicate WithinLimits(u: NewUser)
  {
    JsLength(u.nombre_usuario) <= 20 && JsLength(u.email_usuario) <= 50 && JsLength(u.password_usuario) <= 20
  }

  /** The first field, in the submit's order, that is over its limit. */
  function FirstOverLimit(u: NewUser): (r: Option<Field>)
    ensures r.None? <==> WithinLimits(u)
    ensures r.Some? ==> JsLength(u.Get(r.value)) > MaxLength(r.value)
  {
    if JsLength(u.nombre_usuario) > 20 then Some(Username)
    else if JsLength(u.email_usuario) > 50 then Some(Email)
    else if JsLength(u.password_usuario) > 20 then Some(Password)
    else None
  }

  /** `WithinLimits` bounds each field by its own limit. */
  lemma WithinLimitsGet(u: NewUser, f: Field)
    ensures WithinLimits(u) ==> JsLength(u.Get(f)) <= MaxLength(f)
  {
  }

  /** An accepted change keeps every field within its limit. */
  lemma WithPreservesLimits(u: NewUser, f: Field, value: string)
    requires WithinLimits(u) && JsLength(value) <= MaxLength(f)
    ensures WithinLimits(u.With(f, value))
  {
  }

  class RegisterPage {
    var user: NewUser
    var error: string
    var isLoading: bool
    var isLoadingComplete: bool
    var navigations: seq<Navigation>

    /** Every field is within its limit. */
    predicate Valid()
      reads this
    {
      WithinLimits(user)
    }

    constructor ()
      ensures Valid() && user == NewUser("", "", "") && error == ""
      ensures !isLoading && !isLoadingComplete && navigations == []
    {
      user := NewUser("", "", "");
      error := "";
      isLoading, isLoadingComplete := false, false;
      navigations := [];
    }

    /** `handleChange`: an over-long value is refused; otherwise it is stored and the error line updated. */
    method HandleChange(name: Field, value: string)
      requires Valid()
      modifies this`user, this`error
      ensures Valid()
      ensures error == ErrorAfterChange(old(error), name, old(user).Get(name), value)
      ensures user == (if JsLength(value) > MaxLength(name) then old(user) else old(user).With(name, value))
    {
      if JsLength(value) > MaxLength(name) {
        error := OverLimitMessage(name);
        return;
      }
      WithPreservesLimits(user, name, value);
      // The handler's `setError` calls are batched; the last one decides the new error line.
      error := ErrorAfterChange(error, name, user.Get(name), value);
      user := user.With(name, value);
    }

    /**
     * `handleSubmit`: re-check the limits, register through the user service (whose server
     * answers `reply`), and on success go to e-mail verification. The `finally` block reads
     * the completion flag of the render the handler belongs to.
     */
    method HandleSubmit(reply: RegisterReply)
      modifies this
      ensures user == old(user)
      ensures FirstOverLimit(user).Some? ==>
        error == OverLimitMessage(FirstOverLimit(user).value) &&
        isLoading == old(isLoading) && isLoadingComplete == old(isLoadingComplete) && navigations == old(navigations)
      ensures FirstOverLimit(user).None? ==>
        var o := RegisterUser(reply);
        && isLoading == old(isLoadingComplete)
        && (o.Resolved? && Accepted(o.body) ==>
              isLoadingComplete && error == old(error) &&
              navigations == old(navigations) + [Navigation("/verify-code", Some(user.email_usuario))])
        && (o.Resolved? && !Accepted(o.body) ==>
              !isLoadingComplete && error == old(error) && navigations == old(navigations))
        && (o.Rejected? ==>
              !isLoadingComplete && error == RegistrationError(o) && navigations == old(navigations))
    {
      var completeAtRender := isLoadingComplete;
      if JsLength(user.nombre_usuario) > MaxLength(Username) {
        error := OverLimitMessage(Username);
        return;
      }
      if JsLength(user.email_usuario) > MaxLength(Email) {
        error := OverLimitMessage(Email);
        return;
      }
      if JsLength(user.password_usuario) > MaxLength(Password) {
        error := OverLimitMessage(Password);
        return;
      }
      isLoading := true;
      isLoadingComplete := false;
      var outcome := RegisterUser(reply);
      match outcome {
        case Resolved(body) =>
          if Accepted(body) {
            isLoadingComplete := true;
            navigations := navigations + [Navigation("/verify-code", Some(user.email_usuario))];
          }
        case Rejected(status, message) =>
          error := if status == Some(409) then AlreadyRegistered else if message != "" then message else RegistrationFailed;
          isLoadingComplete := false;
      }
      if !completeAtRender {
        isLoading := false;
      }
    }
  }
}
