/**
 * The page reached from the "close that session" link of a suspicious-login e-mail.
 * The query string says whether the revocation succeeded; whatever it says, a
 * once-a-second countdown sends the visitor to the sign-in page after five seconds.
 */
module SessionRevoked {
  import opened Common

  /** The countdown's first value, in seconds. */
  const Start := 5

  /** The countdown after one interval tick: `prev <= 1 ? 0 : prev - 1`. */
  function TickValue(prev: int): (next: int)
    ensures next >= 0
    ensures prev > 1 ==> next == prev - 1
    ensures prev <= 1 ==> next == 0
  {
    if prev <= 1 then 0 else prev - 1
  }

  /** A tick leaves for the sign-in page exactly when it ends the countdown. */
  predicate TickNavigates(prev: int)
  {
    prev <= 1
  }

  /** The countdown after `k` ticks from `c`. */
  function After(c: int, k: nat): int
    decreases k
  {
    if k == 0 then c else After(TickValue(c), k - 1)
  }

  /** How many of `k` ticks from `c` leave for the sign-in page. */
  function NavigationsDuring(c: int, k: nat): nat
    decreases k
  {
    if k == 0 then 0 else (if TickNavigates(c) then 1 else 0) + NavigationsDuring(TickValue(c), k - 1)
  }

  /** The first `c - 1` ticks from `c` count down by one each and do not navigate. */
  lemma {:induction false} CountsDown(c: int, k: nat)
    requires k < c
    ensures After(c, k) == c - k && NavigationsDuring(c, k) == 0
  {
    if k > 0 {
      CountsDown(c - 1, k - 1);
    }
  }

  /** The `c`-th tick from `c >= 1` is the one that navigates, and it leaves the countdown at 0. */
  lemma {:induction false} LastTickNavigates(c: int)
    requires c >= 1
    ensures After(c, c) == 0 && NavigationsDuring(c, c) == 1
  {
    if c > 1 {
      LastTickNavigates(c - 1);
    }
  }

  /** From the start value: four silent ticks, and the fifth leaves for the sign-in page at 0. */
  lemma FifthTickNavigates()
    ensures forall k: nat :: k < Start ==> After(Start, k) == Start - k > 0 && NavigationsDuring(Start, k) == 0
    ensures After(Start, Start) == 0 && NavigationsDuring(Start, Start) == 1
  {
    forall k: nat | k < Start
      ensures After(Start, k) == Start - k > 0 && NavigationsDuring(Start, k) == 0
    {
      CountsDown(Start, k);
    }
    LastTickNavigates(Start);
  }

  /** The countdown is never negative, however many ticks arrive. */
  lemma {:induction false} NeverNegative(c: int, k: nat)
    requires c >= 0
    ensures 0 <= After(c, k) <= c
  {
    if k > 0 {
      NeverNegative(TickValue(c), k - 1);
    }
  }

  datatype View = SuccessView | ErrorView | LoadingView

  /** The view for the `status` query parameter; `LoadingView` is the fallback. */
  function ViewFor(status: Option<string>): (v: View)
    ensures v == SuccessView <==> status == Some("success")
    ensures v == ErrorView <==> status == Some("error")
  {
    if status == Some("success") then SuccessView
    else if status == Some("error") then ErrorView
    else LoadingView
  }

  const InvalidTokenMessage := "El enlace de revocación no es válido o ya expiró."
  const ServerErrorMessage := "Ocurrió un error al procesar tu solicitud. Por favor intenta nuevamente."
  const GenericMessage := "Ocurrió un error inesperado."

  /** `errorMessages[errorReason] || 'Ocurrió un error inesperado.'`: never empty. */
  function ReasonMessage(reason: Option<string>): (m: string)
    ensures reason == Some("invalid_token") ==> m == InvalidTokenMessage
    ensures reason == Some("server_error") ==> m == ServerErrorMessage
    ensures reason != Some("invalid_token") && reason != Some("server_error") ==> m == GenericMessage
    ensures m != []
  {
    match reason
    case Some("invalid_token") => InvalidTokenMessage
    case Some("server_error") => ServerErrorMessage
    case _ => GenericMessage
  }

  /** `userName || 'Usuario'`: the name in the success greeting, never empty. */
  function GreetingName(userName: Option<string>): (name: string)
    ensures name != []
    ensures Truthy(userName) ==> name == userName.value
  {
    OrElse(userName, "Usuario")
  }

  /** The query parameters `status`, `user` and `reason`, each possibly missing. */
  datatype Query = Query(status: Option<string>, user: Option<string>, reason: Option<string>)

  class RevokedPage {
    const query: Query
    var countdown: int
    var navigations: seq<Navigation>

    predicate Valid()
      reads this
    {
      0 <= countdown <= Start
    }

    constructor (query: Query)
      ensures this.query == query && countdown == Start && navigations == [] && Valid()
    {
      this.query := query;
      countdown := Start;
      navigations := [];
    }

    function View(): View
    {
      ViewFor(query.status)
    }

    /** One tick of the interval, in whichever view the page shows. */
    method Tick()
      requires Valid()
      modifies this
      ensures Valid() && countdown == TickValue(old(countdown))
      ensures TickNavigates(old(countdown)) ==> navigations == old(navigations) + [Navigation("/log-in", None)]
      ensures !TickNavigates(old(countdown)) ==> navigations == old(navigations)
    {
      if countdown <= 1 {
        navigations := navigations + [Navigation("/log-in", None)];
        countdown := 0;
      } else {
        countdown := countdown - 1;
      }
    }

    /** "Ir al Login" in the success and error views. */
    method GoToLogin()
      modifies this
      ensures navigations == old(navigations) + [Navigation("/log-in", None)] && countdown == old(countdown)
    {
      navigations := navigations + [Navigation("/log-in", None)];
    }

    /** "Contactar Soporte" in the error view. */
    method ContactSupport()
      requires View() == ErrorView
      modifies this
      ensures navigations == old(navigations) + [Navigation("/contacto", None)] && countdown == old(countdown)
    {
      navigations := navigations + [Navigation("/contacto", None)];
    }
  }
}
