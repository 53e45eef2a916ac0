/**
 * The contact page's form: name, e-mail and message, validated in that order on
 * submit; one message at a time is shown under the form, and a sent form is cleared
 * and acknowledged for three seconds. Nothing is sent anywhere: the form only logs.
 */
module Contacto {
  import opened Common
  import opened Text

  predicate IsLetter(c: char)
  {
    'a' <= c <= 'z' || 'A' <= c <= 'Z'
  }

  /** `[A-Z0-9._%+-]` under the `i` flag. */
  predicate IsLocalChar(c: char)
  {
    IsLetter(c) || IsDigit(c) || c == '.' || c == '_' || c == '%' || c == '+' || c == '-'
  }

  /** `[A-Z0-9.-]` under the `i` flag. */
  predicate IsDomainChar(c: char)
  {
    IsLetter(c) || IsDigit(c) || c == '.' || c == '-'
  }

  predicate LocalPart(s: string)
  {
    |s| >= 1 && forall i :: 0 <= i < |s| ==> IsLocalChar(s[i])
  }

  predicate DomainPart(s: string)
  {
    |s| >= 1 && forall i :: 0 <= i < |s| ==> IsDomainChar(s[i])
  }

  predicate TopLevel(s: string)
  {
    |s| >= 2 && forall i :: 0 <= i < |s| ==> IsLetter(s[i])
  }

  /** The regular expression `^[A-Z0-9._%+-]+@[A-Z0-9.-]+\.[A-Z]{2,}$` with flag `i`, as a shape. */
  ghost predicate EmailShape(s: string)
  {
    exists at, dot :: 0 < at < dot < |s| && s[at] == '@' && s[dot] == '.' &&
      LocalPart(s[..at]) && DomainPart(s[at + 1..dot]) && TopLevel(s[dot + 1..])
  }

  /** The same test, computed: cut at the only `@`, then at the last point after it. */
  predicate ValidEmail(s: string)
  {
    var at := IndexOf(s, '@');
    at > 0 && LocalPart(s[..at]) &&
    var d := s[at + 1..];
    var dot := LastIndexOf(d, '.');
    dot > 0 && DomainPart(d[..dot]) && TopLevel(d[dot + 1..])
  }

  /** Every string the computed test accepts matches the expression. */
  lemma ValidEmailHasShape(s: string)
    requires ValidEmail(s)
    ensures EmailShape(s)
  {
    var at := IndexOf(s, '@');
    var d := s[at + 1..];
    var dot := LastIndexOf(d, '.');
    assert s[at + 1 + dot] == '.';
    assert s[at + 1..at + 1 + dot] == d[..dot];
    assert s[at + 1 + dot + 1..] == d[dot + 1..];
  }

  /** The domain and top level around the last point are found again by `LastIndexOf`. */
  lemma DomainFound(d: string, domain: string, top: string)
    requires d == domain + ['.'] + top && DomainPart(domain) && TopLevel(top)
    ensures var dot := LastIndexOf(d, '.'); dot > 0 && DomainPart(d[..dot]) && TopLevel(d[dot + 1..])
  {
    assert '.' !in top by {
      assert forall i :: 0 <= i < |top| ==> IsLetter(top[i]);
    }
    LastIndexOfSplit(domain, '.', top);
    assert d[..|domain|] == domain && d[|domain| + 1..] == top;
  }

  /** Every string the expression matches passes the computed test. */
  lemma ShapeIsValidEmail(s: string, at: int, dot: int)
    requires 0 < at < dot < |s| && s[at] == '@' && s[dot] == '.'
    requires LocalPart(s[..at]) && DomainPart(s[at + 1..dot]) && TopLevel(s[dot + 1..])
    ensures ValidEmail(s)
  {
    var local, d := s[..at], s[at + 1..];
    assert '@' !in local by {
      assert forall i :: 0 <= i < |local| ==> IsLocalChar(local[i]);
    }
    assert s == local + ['@'] + d;
    IndexOfSplit(local, '@', d);
    assert d == s[at + 1..dot] + ['.'] + s[dot + 1..];
    DomainFound(d, s[at + 1..dot], s[dot + 1..]);
  }

  /** The computed test accepts exactly the strings the expression matches. */
  lemma ValidEmailMatchesShape(s: string)
    ensures ValidEmail(s) <==> EmailShape(s)
  {
    if ValidEmail(s) {
      ValidEmailHasShape(s);
    }
    if EmailShape(s) {
      var at, dot :| 0 < at < dot < |s| && s[at] == '@' && s[dot] == '.' &&
        LocalPart(s[..at]) && DomainPart(s[at + 1..dot]) && TopLevel(s[dot + 1..]);
      ShapeIsValidEmail(s, at, dot);
    }
  }

  const EmptyName := "El nombre no puede estar vacío."
  const EmptyEmail := "El correo no puede estar vacío."
  const BadEmail := "Ingresa un correo válido."
  const EmptyText := "El cuadro del mensaje no puede estar vacío."

  /** The one message `handleSubmit` records under `para`: the first check that fails. */
  function SubmitError(nombre: string, correo: string, texto: string): (m: Option<string>)
    ensures m.None? <==> !Blank(nombre) && !Blank(correo) && ValidEmail(correo) && !Blank(texto)
    ensures Blank(nombre) ==> m == Some(EmptyName)
    ensures !Blank(nombre) && Blank(correo) ==> m == Some(EmptyEmail)
    ensures !Blank(nombre) && !Blank(correo) && !ValidEmail(correo) ==> m == Some(BadEmail)
    ensures !Blank(nombre) && ValidEmail(correo) && Blank(texto) ==> m == Some(EmptyText)
  {
    if Blank(nombre) then Some(EmptyName)
    else if Blank(correo) then Some(EmptyEmail)
    else if !ValidEmail(correo) then Some(BadEmail)
    else if Blank(texto) then Some(EmptyText)
    else None
  }

  /** A valid address is never blank, so it passes the emptiness check that precedes the pattern. */
  lemma ValidEmailNotBlank(correo: string)
    requires ValidEmail(correo)
    ensures !Blank(correo)
  {
    var at := IndexOf(correo, '@');
    assert IsLocalChar(correo[..at][0]);
    assert !IsSpace(correo[0]);
  }

  /**
   * The `error` object. It starts as the empty string, where `error.para` is undefined too;
   * the change handlers add `nombre` and `correo` keys, which nothing displays.
   */
  datatype ContactErrors = ContactErrors(para: Option<string>, nombre: Option<string>, correo: Option<string>)

  const NoErrors := ContactErrors(None, None, None)

  datatype ContactMessage = ContactMessage(nombre: string, correo: string, texto: string)

  class ContactForm {
    var nombre: string
    var correo: string
    var texto: string
    var error: ContactErrors
    var enviado: bool

    constructor ()
      ensures nombre == "" && correo == "" && texto == "" && error == NoErrors && !enviado
    {
      nombre, correo, texto := "", "", "";
      error := NoErrors;
      enviado := false;
    }

    /** The line shown under the form, if any. */
    function Shown(): (m: Option<string>)
      reads this
      ensures m.Some? ==> m.value != ""
    {
      if error.para.Some? && error.para.value != "" then error.para else None
    }

    /** Typing never hides the shown message: no change handler touches `para`. */
    method HandleChangeNombre(value: string)
      modifies this
      ensures nombre == value && correo == old(correo) && texto == old(texto) && enviado == old(enviado)
      ensures error == if Blank(value) then old(error) else old(error).(nombre := Some(""))
      ensures Shown() == old(Shown())
    {
      nombre := value;
      if !Blank(value) {
        error := error.(nombre := Some(""));
      }
    }

    method HandleChangeCorreo(value: string)
      modifies this
      ensures correo == value && nombre == old(nombre) && texto == old(texto) && enviado == old(enviado)
      ensures error == if Blank(value) then old(error) else old(error).(correo := Some(""))
      ensures Shown() == old(Shown())
    {
      correo := value;
      if !Blank(value) {
        error := error.(correo := Some(""));
      }
    }

    /** The message box's handler clears the `correo` key, not a key of its own. */
    method HandleChangeTexto(value: string)
      modifies this
      ensures texto == value && nombre == old(nombre) && correo == old(correo) && enviado == old(enviado)
      ensures error == if Blank(value) then old(error) else old(error).(correo := Some(""))
      ensures Shown() == old(Shown())
    {
      texto := value;
      if !Blank(value) {
        error := error.(correo := Some(""));
      }
    }

    /** `handleSubmit`: record the first failing check, or clear the form and acknowledge it. */
    method HandleSubmit() returns (sent: Option<ContactMessage>)
      modifies this
      ensures var m := SubmitError(old(nombre), old(correo), old(texto));
        && (m.Some? ==> sent == None && error == ContactErrors(m, None, None) && !enviado &&
                        nombre == old(nombre) && correo == old(correo) && texto == old(texto))
        && (m.None? ==> sent == Some(ContactMessage(old(nombre), old(correo), old(texto))) &&
                        nombre == "" && correo == "" && texto == "" && error == NoErrors && enviado)
    {
      var m := SubmitError(nombre, correo, texto);
      if m.Some? {
        error := ContactErrors(m, None, None);
        enviado := false;
        sent := None;
        return;
      }
      sent := Some(ContactMessage(nombre, correo, texto));
      nombre, correo, texto := "", "", "";
      error := NoErrors;
      enviado := true;
    }

    /** The 3-second timer after a send. */
    method HideSentNotice()
      modifies this`enviado
      ensures !enviado
    {
      enviado := false;
    }
  }

  /** A form that was sent had a name, a well-formed address and a message. */
  lemma SentFormComplete(nombre: string, correo: string, texto: string)
    requires SubmitError(nombre, correo, texto).None?
    ensures !Blank(nombre) && EmailShape(correo) && !Blank(texto)
  {
    ValidEmailMatchesShape(correo);
  }
}
