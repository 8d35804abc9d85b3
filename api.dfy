/**
 * The request interceptor of the HTTP client (services/api.ts): before each
 * request it reads the stored token, decodes it, copies the `role` claim
 * into the store and sets the bearer `Authorization` header (section 2.1 of
 * RFC 6750). Any failure inside is caught and the request goes on.
 */
module Api {
  import opened Common
  import opened Storage
  import opened Session

  const AuthorizationHeader := "Authorization"

  /** The header value `Bearer ${token}`. */
  function BearerValue(token: string): (v: string)
    ensures |v| == |token| + 7 && v[7..] == token && v[..7] == "Bearer "
  {
    "Bearer " + token
  }

  /** A request's configuration; the interceptor edits its headers in place. */
  class RequestConfig {
    var headers: map<string, string>

    constructor (headers: map<string, string>)
      ensures this.headers == headers
    {
      this.headers := headers;
    }
  }

  /**
   * The role claim the interceptor copies into the store: the decoded, truthy
   * `role` of a truthy stored token, if any.
   */
  function RoleToStore(items: Items, decode: Decoder): (role: Option<string>)
    ensures role.Some? ==> role.value != ""
    ensures role.Some? <==>
      Truthy(Lookup(items, TokenKey)) && decode(items[TokenKey]).Some? && Truthy(decode(items[TokenKey]).value.role)
    ensures role.Some? ==> Some(role.value) == decode(items[TokenKey]).value.role
  {
    var token := Lookup(items, TokenKey);
    if Truthy(token) && decode(token.value).Some? && Truthy(decode(token.value).value.role) then
      decode(token.value).value.role
    else None
  }

  /**
   * The store after the interceptor: only `userRole` may change, and only to
   * the decoded role; a failing write leaves the store as it was.
   */
  function InterceptedItems(items: Items, decode: Decoder, roleWriteFails: bool): (r: Items)
    ensures forall k :: k != RoleKey ==> Lookup(r, k) == Lookup(items, k)
    ensures RoleToStore(items, decode).Some? && !roleWriteFails ==>
      RoleKey in r && Some(r[RoleKey]) == RoleToStore(items, decode)
    ensures RoleToStore(items, decode).None? || roleWriteFails ==> r == items
  {
    var role := RoleToStore(items, decode);
    if role.Some? && !roleWriteFails then items[RoleKey := role.value] else items
  }

  /**
   * The headers after the interceptor: `Authorization: Bearer <token>` exactly
   * when a truthy token decodes and the role write (if any) did not throw;
   * otherwise the headers are as they were.
   */
  function InterceptedHeaders(items: Items, headers: map<string, string>, decode: Decoder, roleWriteFails: bool)
    : (r: map<string, string>)
    ensures forall k :: k != AuthorizationHeader ==> (k in r <==> k in headers) && (k in r ==> r[k] == headers[k])
    ensures (Truthy(Lookup(items, TokenKey)) && decode(items[TokenKey]).Some?
             && !(RoleToStore(items, decode).Some? && roleWriteFails)) ==>
      AuthorizationHeader in r && r[AuthorizationHeader] == BearerValue(items[TokenKey])
    ensures !Truthy(Lookup(items, TokenKey)) || decode(items[TokenKey]).None? ==> r == headers
    ensures RoleToStore(items, decode).Some? && roleWriteFails ==> r == headers
  {
    var token := Lookup(items, TokenKey);
    if Truthy(token) && decode(token.value).Some? && !(RoleToStore(items, decode).Some? && roleWriteFails) then
      headers[AuthorizationHeader := BearerValue(token.value)]
    else headers
  }

  /**
   * The interceptor callback. `roleWriteFails` says whether the store rejects
   * the role write; it is caught with the decoding error, so the header is
   * then left unset.
   */
  method InterceptRequest(store: Store, config: RequestConfig, decode: Decoder, roleWriteFails: bool)
    returns (out: RequestConfig)
    modifies store, config
    ensures out == config
    ensures store.items == InterceptedItems(old(store.items), decode, roleWriteFails)
    ensures config.headers == InterceptedHeaders(old(store.items), old(config.headers), decode, roleWriteFails)
  {
    var token := store.GetItem(TokenKey);
    if Truthy(token) {
      var decoded := decode(token.value);
      if decoded.Some? {
        var role := decoded.value.role;
        var ok := true;
        if Truthy(role) {
          ok := store.SetItem(RoleKey, role.value, roleWriteFails);
        }
        if ok {
          config.headers := config.headers[AuthorizationHeader := BearerValue(token.value)];
        }
      }
    }
    out := config;
  }

  /** The interceptor never writes or removes the token, the name or the id. */
  lemma InterceptorKeepsSession(items: Items, decode: Decoder, roleWriteFails: bool)
    ensures var r := InterceptedItems(items, decode, roleWriteFails);
      Lookup(r, TokenKey) == Lookup(items, TokenKey)
      && Lookup(r, NameKey) == Lookup(items, NameKey)
      && Lookup(r, IdKey) == Lookup(items, IdKey)
  {
  }
}
