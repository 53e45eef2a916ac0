/**
 * Values shared by the storefront's components: optional values, the shape of an
 * HTTP reply as the components see it, the `{ type, message }` status banner, the
 * product record the catalogue API returns, and the browser's key/value storage.
 */
module Common {

  datatype Option<+T> = None | Some(value: T)

  /** JavaScript truthiness of a value that is either absent or a string: `''` is falsy. */
  predicate Truthy(s: Option<string>)
  {
    s.Some? && s.value != ""
  }

  /** `a || b` on two optional strings. */
  function OrElse(a: Option<string>, b: string): (r: string)
    ensures Truthy(a) ==> r == a.value
    ensures !Truthy(a) ==> r == b
  {
    if Truthy(a) then a.value else b
  }

  /** The `data` of an error reply: the server's `error` code and `message`, either of which may be missing. */
  datatype ErrorData = ErrorData(error: Option<string>, message: Option<string>)

  /** `error.response` of an axios error: the HTTP status and the body. */
  datatype ErrorResponse = ErrorResponse(status: int, data: ErrorData)

  /** An axios error: `response` is absent when the server was not reached. */
  datatype HttpError = HttpError(response: Option<ErrorResponse>, message: string)

  /** The outcome of one HTTP call: the resolved body or the rejected error. */
  datatype HttpResult<+T> = Ok(data: T) | Err(error: HttpError)

  predicate HasStatus(e: HttpError, status: int)
  {
    e.response.Some? && e.response.value.status == status
  }

  /** `error.response?.data?.message` */
  function ServerMessage(e: HttpError): Option<string>
  {
    if e.response.Some? then e.response.value.data.message else None
  }

  /** `error.response?.data?.error` */
  function ServerCode(e: HttpError): Option<string>
  {
    if e.response.Some? then e.response.value.data.error else None
  }

  /** The `type` of a status banner; `Plain` is the empty type `''` of a cleared banner. */
  datatype Tone = Plain | Info | Success | Warning | Error

  datatype Status = Status(tone: Tone, message: string)

  const Cleared := Status(Plain, "")

  /** A product as the catalogue API returns it. Prices are whole pesos. */
  datatype Product = Product(
    idProduct: int,
    productName: string,
    productDescription: string,
    productPrice: int,
    imageProduct: string,
    enOferta: bool,
    categoriaProduct: Option<string>,
    subCategoriaProduct: Option<string>)

  /** The browser's `localStorage`: string keys to string values. */
  class LocalStorage {
    var items: map<string, string>

    constructor (initial: map<string, string>)
      ensures items == initial
    {
      items := initial;
    }

    /** `getItem(key)`: the stored value, or none. */
    function GetItem(key: string): (r: Option<string>)
      reads this
      ensures r.Some? <==> key in items
      ensures r.Some? ==> r.value == items[key]
    {
      if key in items then Some(items[key]) else None
    }

    method SetItem(key: string, value: string)
      modifies this
      ensures items == old(items)[key := value]
    {
      items := items[key := value];
    }

    method RemoveItem(key: string)
      modifies this
      ensures items == old(items) - {key}
    {
      items := items - {key};
    }
  }

  /** `a` is `b` with some elements left out, the rest kept in order. */
  predicate IsSubsequence<T(==)>(a: seq<T>, b: seq<T>)
  {
    a == [] || (b != [] && ((a[0] == b[0] && IsSubsequence(a[1..], b[1..])) || IsSubsequence(a, b[1..])))
  }

  /** A `navigate(path, { state: { email } })` call of the router; most calls carry no state. */
  datatype Navigation = Navigation(path: string, email: Option<string>)

  /** The key under which the session's bearer token is stored. */
  const TokenKey := "token"
}
