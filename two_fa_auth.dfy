/**
 * The 2FA set-up page: it asks the server for a secret and a QR code, shows them, and
 * enables 2FA once the user types a code from the authenticator app.
 */
module TwoFAAuth {
  import opened Common
  import opened Text
  import TwoFactorLoginModal
  import AxiosConfig

  /** The body of `POST /auth/2fa/setup`; every field may be missing. */
  datatype SetupData = SetupData(
    secret: Option<string>,
    qrCodeImage: Option<string>,
    description: Option<string>,
    message: Option<string>)

  const SetupFailed := "No fue posible generar el código QR. Intenta más tarde."
  const AlreadyEnabled := "Ya tienes 2FA habilitado. Desactívalo antes de configurarlo nuevamente."
  const CodeTooShort := "Ingresa el código de 6 dígitos generado por tu app autenticadora."
  const Enabled := "¡Autenticación de dos factores activada correctamente!"
  const InvalidCode := "Código inválido. Intenta nuevamente."
  const PngDataPrefix := "data:image/png;base64,"
  const SecretPlaceholder := "•••••••••••••••"

  /** The banner text for a failed set-up request: a 409 wins over the body, the body's `error` over its `message`. */
  function SetupErrorMessage(e: HttpError): (m: string)
    ensures m != ""
    ensures HasStatus(e, 409) ==> m == AlreadyEnabled
    ensures !HasStatus(e, 409) && Truthy(ServerCode(e)) ==> m == ServerCode(e).value
    ensures !HasStatus(e, 409) && !Truthy(ServerCode(e)) ==> m == OrElse(ServerMessage(e), SetupFailed)
  {
    if HasStatus(e, 409) then AlreadyEnabled
    else if Truthy(ServerCode(e)) then ServerCode(e).value
    else if Truthy(ServerMessage(e)) then ServerMessage(e).value
    else SetupFailed
  }

  /** The `src` of the QR image: none while there is no image, else a `data:` URL (raw base64 is taken as PNG). */
  function QrSource(image: string): (src: Option<string>)
    ensures src.None? <==> image == ""
    ensures src.Some? ==> StartsWith(src.value, "data:")
    ensures src.Some? && StartsWith(image, "data:") ==> src.value == image
  {
    if image == "" then None
    else if StartsWith(image, "data:") then Some(image)
    else
      assert (PngDataPrefix + image)[..5] == "data:";
      Some(PngDataPrefix + image)
  }

  /** Feeding a computed `src` back in leaves it as it is. */
  lemma QrSourceIdempotent(image: string)
    requires image != ""
    ensures QrSource(QrSource(image).value) == QrSource(image)
  {
  }

  class SetupPage {
    const email: string
    var isLoading: bool
    var isSuccess: bool
    var verificationCode: string
    var secret: string
    var qrCodeImage: string
    var status: Status
    var navigations: seq<Navigation>
    /** The bodies of the `POST /auth/2fa/enable` requests sent so far. */
    var enableRequests: seq<string>
    /** The storage the shared HTTP client reads the token from and clears on a 401. */
    const storage: LocalStorage

    /** Arrive with the router state's e-mail, if any. */
    constructor (stateEmail: Option<string>, storage: LocalStorage)
      ensures email == OrElse(stateEmail, "") && this.storage == storage
      ensures !isLoading && !isSuccess && verificationCode == "" && secret == "" && qrCodeImage == ""
      ensures status == Cleared && navigations == [] && enableRequests == []
    {
      email := OrElse(stateEmail, "");
      this.storage := storage;
      isLoading, isSuccess := false, false;
      verificationCode, secret, qrCodeImage := "", "", "";
      status := Cleared;
      navigations, enableRequests := [], [];
    }

    predicate Valid()
      reads this
    {
      |verificationCode| <= 6 && forall i :: 0 <= i < |verificationCode| ==> IsDigit(verificationCode[i])
    }

    /** The masked e-mail shown under the heading. */
    function ShownEmail(): (r: string)
      reads this
      ensures email == "" ==> r == ""
    {
      TwoFactorLoginModal.MaskedEmail(email)
    }

    /** The secret key line: the secret, or a row of dots while there is none. */
    function ShownSecret(): (r: string)
      reads this
      ensures r != ""
      ensures secret != "" ==> r == secret
    {
      if secret != "" then secret else SecretPlaceholder
    }

    /** `requestSetupData`, run on mount and by the regenerate button; the server answers `reply`. */
    method RequestSetupData(reply: HttpResult<SetupData>)
      modifies this, storage
      ensures !isLoading
      ensures storage.items == AxiosConfig.StorageAfterReply(old(storage.items), reply)
      ensures reply.Ok? ==>
        secret == OrElse(reply.data.secret, "") && qrCodeImage == OrElse(reply.data.qrCodeImage, "") &&
        status == (if Truthy(reply.data.description) then Status(Info, reply.data.description.value)
                   else if Truthy(reply.data.message) then Status(Info, reply.data.message.value)
                   else Cleared)
      ensures reply.Err? ==>
        secret == old(secret) && qrCodeImage == old(qrCodeImage) &&
        status == Status(Error, SetupErrorMessage(reply.error))
      ensures verificationCode == old(verificationCode) && navigations == old(navigations) && isSuccess == old(isSuccess)
      ensures enableRequests == old(enableRequests)
    {
      isLoading := true;
      status := Cleared;
      var r := AxiosConfig.InterceptResponse(storage, reply);
      match r {
        case Ok(data) =>
          secret := OrElse(data.secret, "");
          qrCodeImage := OrElse(data.qrCodeImage, "");
          if Truthy(data.description) || Truthy(data.message) {
            status := Status(Info, if Truthy(data.description) then data.description.value else data.message.value);
          }
        case Err(e) =>
          status := Status(Error, SetupErrorMessage(e));
      }
      isLoading := false;
    }

    /** The code field's `onChange`: only the code changes. */
    method HandleCodeChange(typed: string)
      modifies this`verificationCode
      ensures Valid() && verificationCode == TwoFactorLoginModal.CodeInput(typed)
    {
      verificationCode := TwoFactorLoginModal.CodeInput(typed);
    }

    /**
     * `handleVerifyCode`: a code shorter than six characters after `trim` only raises a
     * warning; otherwise the trimmed code is sent, and the server answers `reply`.
     */
    method HandleVerifyCode(reply: HttpResult<()>)
      requires Valid()
      modifies this`isLoading, this`isSuccess, this`status, this`navigations, this`enableRequests, storage
      ensures Valid()
      ensures |verificationCode| < 6 ==>
        status == Status(Warning, CodeTooShort) && enableRequests == old(enableRequests) &&
        isLoading == old(isLoading) && storage.items == old(storage.items) &&
        navigations == old(navigations) && isSuccess == old(isSuccess)
      ensures |verificationCode| == 6 ==>
        !isLoading && enableRequests == old(enableRequests) + [verificationCode] &&
        storage.items == AxiosConfig.StorageAfterReply(old(storage.items), reply)
      ensures |verificationCode| == 6 && reply.Ok? ==>
        status == Status(Success, Enabled) && isSuccess && navigations == old(navigations) + [Navigation("/", None)]
      ensures |verificationCode| == 6 && reply.Err? ==>
        status == Status(Error, OrElse(ServerMessage(reply.error), InvalidCode)) &&
        isSuccess == old(isSuccess) && navigations == old(navigations)
    {
      var code := verificationCode;
      var trimmed := Trim(code);
      assert trimmed == code && JsLength(trimmed) == |code| by {
        TrimmedDigits(code);
      }
      if JsLength(trimmed) < 6 {
        status := Status(Warning, CodeTooShort);
        return;
      }
      SendCode(trimmed, reply);
    }

    /** The request half of `handleVerifyCode`: `POST` the code, then report the answer. */
    method SendCode(code: string, reply: HttpResult<()>)
      modifies this`isLoading, this`isSuccess, this`status, this`navigations, this`enableRequests, storage
      ensures !isLoading && enableRequests == old(enableRequests) + [code]
      ensures storage.items == AxiosConfig.StorageAfterReply(old(storage.items), reply)
      ensures reply.Ok? ==>
        status == Status(Success, Enabled) && isSuccess && navigations == old(navigations) + [Navigation("/", None)]
      ensures reply.Err? ==>
        status == Status(Error, OrElse(ServerMessage(reply.error), InvalidCode)) &&
        isSuccess == old(isSuccess) && navigations == old(navigations)
    {
      isLoading := true;
      status := Cleared;
      enableRequests := enableRequests + [code];
      var r := AxiosConfig.InterceptResponse(storage, reply);
      match r {
        case Ok(_) =>
          status := Status(Success, Enabled);
          isSuccess := true;
          navigations := navigations + [Navigation("/", None)];
        case Err(e) =>
          status := Status(Error, OrElse(ServerMessage(e), InvalidCode));
      }
      isLoading := false;
    }

    /** The "back to home" and "cancel set-up" buttons. */
    method Leave(cancel: bool)
      modifies this`navigations
      ensures navigations == old(navigations) + [Navigation(if cancel then "/log-in" else "/", None)]
    {
      navigations := navigations + [Navigation(if cancel then "/log-in" else "/", None)];
    }
  }
}
