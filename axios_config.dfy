/**
 * The shared HTTP client: every request is sent to the backend's base URL with the
 * stored bearer token attached, and every 401 reply erases that token before the
 * caller sees the rejection.
 */
module AxiosConfig {
  import opened Common

  const BaseUrl := "http://localhost:8080"

  const AuthorizationHeader := "Authorization"

  /** The headers the request interceptor leaves on a request, given the stored token. */
  function WithBearer(token: Option<string>, headers: map<string, string>): (r: map<string, string>)
    ensures Truthy(token) ==> AuthorizationHeader in r && r[AuthorizationHeader] == "Bearer " + token.value
    ensures !Truthy(token) ==> r == headers
    ensures forall k :: k != AuthorizationHeader ==> (k in r <==> k in headers)
    ensures forall k :: k != AuthorizationHeader && k in headers ==> r[k] == headers[k]
  {
    if Truthy(token) then headers[AuthorizationHeader := "Bearer " + token.value] else headers
  }

  /** The storage after the response interceptor has seen `reply`. */
  function StorageAfterReply<T>(items: map<string, string>, reply: HttpResult<T>): (r: map<string, string>)
    ensures reply.Err? && HasStatus(reply.error, 401) ==> TokenKey !in r
    ensures forall k :: k != TokenKey ==> (k in r <==> k in items)
    ensures forall k :: k in r ==> k in items && r[k] == items[k]
    ensures !(reply.Err? && HasStatus(reply.error, 401)) ==> r == items
  {
    if reply.Err? && HasStatus(reply.error, 401) then items - {TokenKey} else items
  }

  /** A request on its way out: the path below `BaseUrl` and its headers. */
  class RequestConfig {
    var url: string
    var headers: map<string, string>

    constructor (url: string, headers: map<string, string>)
      ensures this.url == url && this.headers == headers
    {
      this.url := url;
      this.headers := headers;
    }
  }

  /** The request interceptor: attach `Authorization: Bearer <token>` when a token is stored. */
  method InterceptRequest(storage: LocalStorage, config: RequestConfig) returns (sent: RequestConfig)
    modifies config
    ensures sent == config && config.url == old(config.url)
    ensures config.headers == WithBearer(storage.GetItem(TokenKey), old(config.headers))
  {
    var token := storage.GetItem(TokenKey);
    if Truthy(token) {
      config.headers := config.headers[AuthorizationHeader := "Bearer " + token.value];
    }
    sent := config;
  }

  /** The response interceptor: pass the reply on unchanged; on a 401, remove the stored token first. */
  method InterceptResponse<T>(storage: LocalStorage, reply: HttpResult<T>) returns (r: HttpResult<T>)
    modifies storage
    ensures r == reply
    ensures storage.items == StorageAfterReply(old(storage.items), reply)
  {
    if reply.Err? && HasStatus(reply.error, 401) {
      storage.RemoveItem(TokenKey);
    }
    r := reply;
  }

  /** After a 401 reply, the next request goes out without a bearer token. */
  lemma UnauthorizedDropsBearer<T>(items: map<string, string>, reply: HttpResult<T>, headers: map<string, string>)
    requires reply.Err? && HasStatus(reply.error, 401)
    ensures var after := StorageAfterReply(items, reply);
      WithBearer(if TokenKey in after then Some(after[TokenKey]) else None, headers) == headers
  {
  }
}
