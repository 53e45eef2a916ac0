/**
 * The profile settings page: three forms (user name, phone, identification number), each
 * validated locally and then sent with `PUT` through the shared HTTP client. A confirmed
 * value is copied from the edit buffer to the shown profile.
 */
module ConfigurarPerfil {
  import opened Common
  import opened Text
  import AxiosConfig
  import AuthContext

  datatype ProfileField = Username | Phone | Identification

  /** The three editable profile values. */
  datatype Profile = Profile(nombre_usuario: string, numero_telefono: string, numero_identificacion: string)
  {
    function Get(f: ProfileField): string
    {
      match f
      case Username => nombre_usuario
      case Phone => numero_telefono
      case Identification => numero_identificacion
    }

    function With(f: ProfileField, value: string): (p: Profile)
      ensures p.Get(f) == value
      ensures forall g :: g != f ==> p.Get(g) == Get(g)
    {
      match f
      case Username => this.(nombre_usuario := value)
      case Phone => this.(numero_telefono := value)
      case Identification => this.(numero_identificacion := value)
    }
  }

  /** The profile the page starts from: the signed-in user's values, `''` where missing. */
  function ProfileOf(user: Option<AuthContext.User>): (p: Profile)
    ensures user.None? ==> p == Profile("", "", "")
    ensures user.Some? ==> p.nombre_usuario == OrElse(user.value.nombre_usuario, "")
    ensures user.Some? ==> p.numero_telefono == OrElse(user.value.numero_telefono, "")
    ensures user.Some? ==> p.numero_identificacion == OrElse(user.value.numero_identificacion, "")
  {
    if user.None? then Profile("", "", "")
    else Profile(
      OrElse(user.value.nombre_usuario, ""),
      OrElse(user.value.numero_telefono, ""),
      OrElse(user.value.numero_identificacion, ""))
  }

  /** `/^[0-9]{7,15}$/` */
  predicate PhonePattern(s: string)
  {
    7 <= |s| <= 15 && forall i :: 0 <= i < |s| ==> IsDigit(s[i])
  }

  function EmptyMessage(f: ProfileField): string
  {
    match f
    case Username => "El nombre de usuario no puede estar vacío"
    case Phone => "El número de teléfono no puede estar vacío"
    case Identification => "El número de identificación no puede estar vacío"
  }

  const InvalidPhone := "Por favor ingresa un número de teléfono válido (7-15 dígitos)"
  const ShortIdentification := "El número de identificación debe tener al menos 5 dígitos"

  /**
   * The local check of each form: the error it shows, or none when the value may be sent.
   * The identification's length is JavaScript's, in UTF-16 code units.
   */
  function Validate(f: ProfileField, value: string): (r: Option<string>)
    ensures Blank(value) ==> r == Some(EmptyMessage(f))
    ensures f == Username && !Blank(value) ==> r == None
    ensures f == Phone && !Blank(value) ==> r == (if PhonePattern(Digits(value)) then None else Some(InvalidPhone))
    ensures f == Identification && !Blank(value) ==> r == (if JsLength(value) < 5 then Some(ShortIdentification) else None)
  {
    if Trim(value) == "" then Some(EmptyMessage(f))
    else match f
      case Username => None
      case Phone => if PhonePattern(Digits(value)) then None else Some(InvalidPhone)
      case Identification => if JsLength(value) < 5 then Some(ShortIdentification) else None
  }

  /** A string holding a digit is not blank. */
  lemma DigitNotBlank(s: string, i: int)
    requires 0 <= i < |s| && IsDigit(s[i])
    ensures !Blank(s)
  {
  }

  /** Any digit of `Digits(s)` is a character of `s`. */
  lemma {:induction false} DigitsFromSource(s: string, k: int)
    requires 0 <= k < |Digits(s)|
    ensures exists i :: 0 <= i < |s| && s[i] == Digits(s)[k]
  {
    if IsDigit(s[0]) {
      if k == 0 {
        assert s[0] == Digits(s)[0];
      } else {
        DigitsFromSource(s[1..], k - 1);
        var i :| 0 <= i < |s| - 1 && s[1..][i] == Digits(s[1..])[k - 1];
        assert s[i + 1] == Digits(s)[k];
      }
    } else {
      DigitsFromSource(s[1..], k);
      var i :| 0 <= i < |s| - 1 && s[1..][i] == Digits(s[1..])[k];
      assert s[i + 1] == Digits(s)[k];
    }
  }

  /** A user name is accepted exactly when it is not blank. */
  lemma UsernameAccepted(value: string)
    ensures Validate(Username, value).None? <==> !Blank(value)
  {
  }

  /**
   * A phone number is accepted exactly when it holds 7 to 15 digits, whatever else it holds;
   * a non-blank number that is refused gets the invalid-phone message.
   */
  lemma PhoneAccepted(value: string)
    ensures Validate(Phone, value).None? <==> 7 <= |Digits(value)| <= 15
    ensures !Blank(value) && Validate(Phone, value).Some? ==> Validate(Phone, value) == Some(InvalidPhone)
  {
    if 7 <= |Digits(value)| {
      DigitsFromSource(value, 0);
      var i :| 0 <= i < |value| && value[i] == Digits(value)[0];
      DigitNotBlank(value, i);
    }
  }

  /**
   * An identification number is accepted exactly when it is not blank and, spaces included,
   * at least 5 code units long; for ordinary characters that is at least 5 characters.
   */
  lemma IdentificationAccepted(value: string)
    ensures Validate(Identification, value).None? <==> !Blank(value) && JsLength(value) >= 5
    ensures Narrow(value) ==> (Validate(Identification, value).None? <==> !Blank(value) && |value| >= 5)
  {
    if Narrow(value) {
      JsLengthNarrow(value);
    }
  }

  /** A formatted phone number passes the check and is sent as typed, separators included. */
  lemma FormattedPhoneSentAsTyped()
    ensures Validate(Phone, "300-123-4567").None?
  {
    var a, b, c := "300", "123", "4567";
    assert "300-123-4567" == a + ['-'] + b + ['-'] + c;
    DashedDigits(a, b, c);
    PhoneAccepted(a + ['-'] + b + ['-'] + c);
  }

  /** Dashes between runs of digits are dropped by the digit filter. */
  lemma DashedDigits(a: string, b: string, c: string)
    requires forall i :: 0 <= i < |a| ==> IsDigit(a[i])
    requires forall i :: 0 <= i < |b| ==> IsDigit(b[i])
    requires forall i :: 0 <= i < |c| ==> IsDigit(c[i])
    ensures |Digits(a + ['-'] + b + ['-'] + c)| == |a| + |b| + |c|
  {
    DigitsAppend(a + ['-'] + b + ['-'], c);
    DigitsAppend(a + ['-'] + b, ['-']);
    DigitsAppend(a + ['-'], b);
    DigitsAppend(a, ['-']);
    DigitsOfDigits(a);
    DigitsOfDigits(b);
    DigitsOfDigits(c);
  }

  function SuccessMessage(f: ProfileField): string
  {
    match f
    case Username => "Nombre de usuario actualizado exitosamente"
    case Phone => "Número de teléfono actualizado exitosamente"
    case Identification => "Número de identificación actualizado exitosamente"
  }

  function FailureMessage(f: ProfileField): string
  {
    match f
    case Username => "Error al actualizar el nombre de usuario"
    case Phone => "Error al actualizar el número de teléfono"
    case Identification => "Error al actualizar el número de identificación"
  }

  /** The endpoint each form sends to. */
  function Endpoint(f: ProfileField): string
  {
    match f
    case Username => "/auth/update-username"
    case Phone => "/auth/update-phone"
    case Identification => "/auth/update-id"
  }

  /** A `PUT` the page sent: the endpoint and the value in its body. */
  datatype Update = Update(endpoint: string, value: string)

  class ProfilePage {
    var activeTab: ProfileField
    var loading: bool
    var successMessage: string
    var errorMessage: string
    var formData: Profile
    var editData: Profile
    var sent: seq<Update>
    var navigations: seq<Navigation>
    const auth: AuthContext.AuthProvider

    constructor (auth: AuthContext.AuthProvider)
      ensures this.auth == auth && activeTab == Username && !loading
      ensures successMessage == "" && errorMessage == ""
      ensures formData == ProfileOf(auth.user) && editData == formData
      ensures sent == [] && navigations == []
    {
      this.auth := auth;
      activeTab := Username;
      loading := false;
      successMessage, errorMessage := "", "";
      formData := ProfileOf(auth.user);
      editData := ProfileOf(auth.user);
      sent, navigations := [], [];
    }

    /** The authentication effect: leave for the sign-in page when not signed in. */
    method CheckAuthentication()
      modifies this`navigations
      ensures navigations == old(navigations) + (if auth.IsAuthenticated() then [] else [Navigation("/log-in", None)])
    {
      if !auth.IsAuthenticated() {
        navigations := navigations + [Navigation("/log-in", None)];
      }
    }

    /** The sidebar's `setActiveTab`: only the active tab changes. */
    method SelectTab(tab: ProfileField)
      modifies this`activeTab
      ensures activeTab == tab
    {
      activeTab := tab;
    }

    /** `handleInputChange`: only the edit buffer changes. */
    method HandleInputChange(name: ProfileField, value: string)
      modifies this`editData
      ensures editData == old(editData).With(name, value)
    {
      editData := editData.With(name, value);
    }

    /**
     * The submit handler of form `f`: validate the edited value, send it, and on success
     * copy it into the shown profile. The server answers `reply`.
     */
    method SubmitUpdate(f: ProfileField, reply: HttpResult<()>)
      modifies this`loading, this`successMessage, this`errorMessage, this`formData, this`sent, auth.storage
      ensures var value := old(editData).Get(f);
        && (Validate(f, value).Some? ==>
              errorMessage == Validate(f, value).value && successMessage == old(successMessage) &&
              formData == old(formData) && sent == old(sent) && loading == old(loading) &&
              auth.storage.items == old(auth.storage.items))
        && (Validate(f, value).None? ==> Sent(f, value, reply, old(formData), old(sent), old(auth.storage.items)))
    {
      var value := editData.Get(f);
      var invalid := Validate(f, value);
      if invalid.Some? {
        Refuse(invalid.value);
      } else {
        Send(f, value, reply);
      }
    }

    /** A value refused by the local check: only its message is shown. */
    method Refuse(message: string)
      modifies this`errorMessage
      ensures errorMessage == message
    {
      errorMessage := message;
    }

    /** The state after `value` was sent for field `f` and the server answered `reply`. */
    ghost predicate Sent(f: ProfileField, value: string, reply: HttpResult<()>, formBefore: Profile, sentBefore: seq<Update>, itemsBefore: map<string, string>)
      reads this, auth.storage
    {
      && !loading && sent == sentBefore + [Update(Endpoint(f), value)]
      && auth.storage.items == AxiosConfig.StorageAfterReply(itemsBefore, reply)
      && (reply.Ok? ==>
            formData == formBefore.With(f, value) && successMessage == SuccessMessage(f) && errorMessage == "")
      && (reply.Err? ==>
            formData == formBefore && successMessage == "" &&
            errorMessage == OrElse(ServerMessage(reply.error), FailureMessage(f)))
    }

    /** The `try`/`catch`/`finally` of a submit handler once the value has passed the local check. */
    method Send(f: ProfileField, value: string, reply: HttpResult<()>)
      modifies this`loading, this`successMessage, this`errorMessage, this`formData, this`sent, auth.storage
      ensures Sent(f, value, reply, old(formData), old(sent), old(auth.storage.items))
    {
      loading := true;
      successMessage, errorMessage := "", "";
      sent := sent + [Update(Endpoint(f), value)];
      var r := AxiosConfig.InterceptResponse(auth.storage, reply);
      match r {
        case Ok(_) =>
          formData := formData.With(f, value);
          successMessage := SuccessMessage(f);
        case Err(e) =>
          errorMessage := OrElse(ServerMessage(e), FailureMessage(f));
      }
      loading := false;
    }

    /** The 3-second timer after a success. */
    method SuccessTimerFired()
      modifies this`successMessage
      ensures successMessage == ""
    {
      successMessage := "";
    }

    /** The 3-second timer after a failed request. */
    method ErrorTimerFired()
      modifies this`errorMessage
      ensures errorMessage == ""
    {
      errorMessage := "";
    }

    /** The back button. */
    method GoHome()
      modifies this`navigations
      ensures navigations == old(navigations) + [Navigation("/", None)]
    {
      navigations := navigations + [Navigation("/", None)];
    }
  }
}
