/**
 * The dialog that asks for the 6-digit code on the second step of a 2FA sign-in. It
 * keeps the typed code and its own error line; submitting hands the code to the sign-in
 * page's verification handler.
 */
module TwoFactorLoginModal {
  import opened Common
  import opened Text
  import AuthContext
  import IniciarSesion
  import AxiosConfig

  const CodeLength := 6
  const CodeLengthError := "El código debe tener 6 dígitos"
  const InvalidCodeFallback := "Código inválido"

  /**
   * The e-mail shown in the dialog: the first two characters of the local part, a `*` for
   * each further one, then `@` and the second piece of the split on `@`. An empty address
   * gives `''`; one without a non-empty second piece is shown as it is.
   */
  function MaskedEmail(email: string): (r: string)
    ensures email == "" ==> r == ""
    ensures '@' !in email ==> r == email
  {
    if email == "" then ""
    else
      var parts := Split(email, '@');
      if |parts| < 2 || parts[1] == "" then email
      else
        var user := parts[0];
        Take(user, 2) + Repeat('*', if |user| >= 2 then |user| - 2 else 0) + "@" + parts[1]
  }

  /** The local part with all but its first two characters starred. */
  function MaskLocal(user: string): (r: string)
    ensures |r| == |user|
    ensures forall i :: 0 <= i < |user| ==> r[i] == (if i < 2 then user[i] else '*')
  {
    Take(user, 2) + Repeat('*', if |user| >= 2 then |user| - 2 else 0)
  }

  /** An ordinary address `user@domain` keeps its length and domain; only the local part is starred. */
  lemma MaskedSingleAt(user: string, domain: string)
    requires '@' !in user && '@' !in domain && domain != ""
    ensures MaskedEmail(user + "@" + domain) == MaskLocal(user) + "@" + domain
    ensures |MaskedEmail(user + "@" + domain)| == |user + "@" + domain|
  {
    SplitAtFirst(user, '@', domain);
  }

  /** Everything after a second `@` is dropped from the shown address. */
  lemma MaskedDropsAfterSecondAt(user: string, domain: string, rest: string)
    requires '@' !in user && '@' !in domain && domain != ""
    ensures MaskedEmail(user + "@" + domain + "@" + rest) == MaskLocal(user) + "@" + domain
  {
    var tail := domain + ['@'] + rest;
    var email := user + ['@'] + tail;
    assert email == user + "@" + domain + "@" + rest;
    assert |Split(email, '@')| >= 2 && Split(email, '@')[0] == user && Split(email, '@')[1] == domain by {
      SplitAtFirst(user, '@', tail);
      SplitAtFirst(domain, '@', rest);
      assert Split(email, '@') == [user] + ([domain] + Split(rest, '@'));
    }
  }

  /** An address whose domain is empty is shown unmasked. */
  lemma UnmaskedWithoutDomain(user: string, rest: string)
    requires '@' !in user
    ensures MaskedEmail(user + "@" + "@" + rest) == user + "@" + "@" + rest
    ensures MaskedEmail(user + "@") == user + "@"
  {
    var tail := [] + ['@'] + rest;
    var email := user + ['@'] + tail;
    assert email == user + "@" + "@" + rest;
    assert Split(email, '@')[1] == [] by {
      SplitAtFirst(user, '@', tail);
      SplitAtFirst([], '@', rest);
    }
    var short := user + ['@'] + [];
    assert short == user + "@";
    assert Split(short, '@')[1] == [] by {
      SplitAtFirst(user, '@', []);
    }
  }

  /**
   * The code field: the browser keeps what fits in `maxLength` (six UTF-16 code units),
   * then the handler drops every non-digit.
   */
  function CodeInput(typed: string): (code: string)
    ensures |code| <= CodeLength
    ensures forall i :: 0 <= i < |code| ==> IsDigit(code[i])
    ensures JsLength(typed) <= CodeLength && (forall i :: 0 <= i < |typed| ==> IsDigit(typed[i])) ==> code == typed
  {
    var kept := TakeUnits(typed, CodeLength);
    assert JsLength(typed) <= CodeLength ==> kept == typed by {
      if JsLength(typed) <= CodeLength {
        TakeUnitsFits(typed, CodeLength);
      }
    }
    assert (forall i :: 0 <= i < |kept| ==> IsDigit(kept[i])) ==> Digits(kept) == kept by {
      if forall i :: 0 <= i < |kept| ==> IsDigit(kept[i]) {
        DigitsOfDigits(kept);
      }
    }
    Digits(kept)
  }

  /**
   * The code holds exactly the digits of the longest prefix of the typed text that fits in
   * six code units, in their order; a prefix of ordinary characters is the first six.
   */
  lemma CodeIsTypedDigits(typed: string)
    ensures var kept := TakeUnits(typed, CodeLength);
      && kept == typed[..|kept|] && JsLength(kept) <= CodeLength
      && (|kept| < |typed| ==> JsLength(kept) + CodeUnits(typed[|kept|]) > CodeLength)
      && (exists idx :: PicksOf(CodeInput(typed), kept, idx) && CoversDigits(kept, idx))
    ensures Narrow(typed) ==> TakeUnits(typed, CodeLength) == Take(typed, CodeLength)
  {
    DigitsInOrder(TakeUnits(typed, CodeLength));
    if Narrow(typed) {
      TakeUnitsNarrow(typed, CodeLength);
    }
  }

  class CodeDialog {
    var code: string
    var error: string
    const page: IniciarSesion.LoginPage

    /** The code field only ever holds up to six digits. */
    predicate Valid()
      reads this
    {
      |code| <= CodeLength && forall i :: 0 <= i < |code| ==> IsDigit(code[i])
    }

    constructor (page: IniciarSesion.LoginPage)
      ensures this.page == page && code == "" && error == "" && Valid()
    {
      this.page := page;
      code, error := "", "";
    }

    /** The e-mail line: the kept e-mail of the sign-in page, masked. */
    function ShownEmail(): (r: string)
      reads this, page
      ensures page.pendingCredentials.None? ==> r == ""
    {
      MaskedEmail(if page.pendingCredentials.Some? then page.pendingCredentials.value.email else "")
    }

    /** The submit button is enabled only with exactly six digits and no request in flight. */
    predicate SubmitEnabled()
      reads this, page
    {
      !page.isLoading && JsLength(code) == CodeLength
    }

    /** The code field's `onChange`: only the code changes. */
    method HandleCodeChange(typed: string)
      modifies this`code
      ensures Valid() && code == CodeInput(typed)
    {
      code := CodeInput(typed);
    }

    /**
     * `handleSubmit`: reject a code that is not six characters after `trim`; otherwise
     * verify it through the page (the server answers `reply`) and show what it throws.
     */
    method HandleSubmit(reply: HttpResult<AuthContext.LoginData>)
      requires Valid()
      modifies this`error, page`status, page`isLoading, page`isLoadingComplete, page`show2FALoginModal
      modifies page`pendingCredentials, page`navigations, page.auth, page.auth.storage
      ensures Valid() && code == old(code)
      ensures page.auth.loading == old(page.auth.loading)
      ensures |code| != CodeLength || old(page.pendingCredentials).None? ==>
        page.status == old(page.status) && page.isLoading == old(page.isLoading) &&
        page.isLoadingComplete == old(page.isLoadingComplete) && page.show2FALoginModal == old(page.show2FALoginModal) &&
        page.navigations == old(page.navigations) && page.auth.user == old(page.auth.user) &&
        page.auth.storage.items == old(page.auth.storage.items)
      ensures |code| != CodeLength ==> error == CodeLengthError && page.pendingCredentials == old(page.pendingCredentials)
      ensures |code| == CodeLength && old(page.pendingCredentials).None? ==> error == "" && page.pendingCredentials == None
      ensures |code| == CodeLength && old(page.pendingCredentials).Some? ==>
        var thrown := IniciarSesion.VerifyFailure(AuthContext.LoginResult(reply));
        && error == (if thrown.Some? then thrown.value else "")
        && (thrown.None? ==>
              !page.show2FALoginModal && page.pendingCredentials == None && page.isLoadingComplete && page.isLoading &&
              page.status == Status(Success, IniciarSesion.TwoFactorSucceeded) &&
              page.navigations == old(page.navigations) + [Navigation("/", None)] && page.auth.IsAuthenticated())
        && (thrown.Some? ==>
              !page.isLoading && page.status == Cleared && page.pendingCredentials == old(page.pendingCredentials) &&
              page.isLoadingComplete == old(page.isLoadingComplete) && page.show2FALoginModal == old(page.show2FALoginModal) &&
              page.navigations == old(page.navigations))
      ensures |code| == CodeLength && old(page.pendingCredentials).Some? && reply.Ok? && Truthy(reply.data.token) ==>
        page.auth.user == Some(AuthContext.UserOf(reply.data)) &&
        page.auth.storage.items == old(page.auth.storage.items)[TokenKey := reply.data.token.value]
      ensures |code| == CodeLength && old(page.pendingCredentials).Some? && reply.Ok? && !Truthy(reply.data.token) ==>
        page.auth.user == old(page.auth.user) && page.auth.storage.items == old(page.auth.storage.items)
      ensures |code| == CodeLength && old(page.pendingCredentials).Some? && reply.Err? ==>
        page.auth.user == old(page.auth.user) &&
        page.auth.storage.items == AxiosConfig.StorageAfterReply(old(page.auth.storage.items), reply)
    {
      error := "";
      TrimDigits(code);
      JsLengthDigits(code);
      if JsLength(Trim(code)) != CodeLength {
        error := CodeLengthError;
        return;
      }
      var thrown := page.Handle2FALoginVerify(code, reply);
      if thrown.Some? {
        IniciarSesion.VerifyFailureHasMessage(reply);
        error := if thrown.value != "" then thrown.value else InvalidCodeFallback;
      }
    }
  }
}
