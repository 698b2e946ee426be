/**
 * The REST client (lib/api.ts): the bearer header, login and logout against the secure
 * store, token validation and the history query. The store is a map from keys to strings;
 * HTTP replies are inputs.
 */
module Api {
  import opened Wrappers
  import opened Types
  import Text

  const TokenKey: string := "auth_token"
  const OwnerNameKey: string := "owner_name"
  const BotNameKey: string := "bot_name"
  const TenantIdKey: string := "tenant_id"

  /** The keys login writes and logout deletes. */
  function AuthKeys(): set<string>
  {
    {TokenKey, OwnerNameKey, BotNameKey, TenantIdKey}
  }

  /** `getItemAsync` on a store holding `items`: the stored string, or `null`. */
  function Item(items: map<string, string>, key: string): Option<string>
  {
    if key in items then Some(items[key]) else None
  }

  /** The device's secure store (`expo-secure-store`). */
  class SecureStore {
    var items: map<string, string>

    constructor (items: map<string, string>)
      ensures this.items == items
    {
      this.items := items;
    }

    method SetItem(key: string, value: string)
      modifies this
      ensures items == old(items)[key := value]
    {
      items := items[key := value];
    }

    method DeleteItem(key: string)
      modifies this
      ensures items == old(items) - {key}
    {
      items := items - {key};
    }
  }

  /** `!token` is false: a token that is stored and not empty. */
  predicate Present(token: Option<string>)
  {
    token.Some? && token.value != ""
  }

  const BearerPrefix: string := "Bearer "

  /** `authHeaders`: no header without a token, otherwise only `Authorization: Bearer <token>`. */
  function AuthHeaders(token: Option<string>): (r: map<string, string>)
    ensures !Present(token) ==> r == map[]
    ensures Present(token) ==> r.Keys == {"Authorization"} && r["Authorization"] == "Bearer " + token.value
  {
    if !Present(token) then map[] else map["Authorization" := BearerPrefix + token.value]
  }

  /** The token a server reads back from the headers. */
  function BearerOf(headers: map<string, string>): Option<string>
  {
    if "Authorization" in headers && |headers["Authorization"]| >= |BearerPrefix| &&
       headers["Authorization"][..|BearerPrefix|] == BearerPrefix
    then Some(headers["Authorization"][|BearerPrefix|..])
    else None
  }

  /**
   * The headers carry the stored token and nothing else: none at all without one, and a
   * single `Authorization` header from which the token reads back exactly.
   */
  lemma AuthHeadersCarryToken(token: Option<string>)
    ensures AuthHeaders(token) == map[] <==> !Present(token)
    ensures Present(token) ==> AuthHeaders(token).Keys == {"Authorization"} && BearerOf(AuthHeaders(token)) == token
  {
    if Present(token) {
      var h := AuthHeaders(token);
      assert "Authorization" in h;
      assert h["Authorization"][..|BearerPrefix|] == BearerPrefix;
      assert h["Authorization"][|BearerPrefix|..] == token.value;
    }
  }

  /** A request the client sends: a path, its query parameters in order, and its headers. */
  datatype Request = Request(path: string, query: seq<(string, string)>, headers: map<string, string>)

  /** The answer to the token probe: a response with its `ok` flag, or a network error. */
  datatype Probe = Responded(ok: bool) | NetworkError

  datatype Validation = Validation(valid: bool, request: Option<Request>)

  /**
   * `isAuthenticated`: false without a request when no token is stored; otherwise the
   * probe's `ok`, and true when the network fails (the token is then assumed still valid).
   */
  function IsAuthenticated(token: Option<string>, probe: Probe): (r: Validation)
    ensures !Present(token) ==> r == Validation(false, None)
    ensures Present(token) ==> r.request == Some(Request("/owner/api/data", [], AuthHeaders(token)))
    ensures Present(token) ==> r.valid == (probe.NetworkError? || probe.ok)
  {
    if !Present(token) then Validation(false, None)
    else
      var request := Request("/owner/api/data", [], AuthHeaders(token));
      match probe
      case Responded(ok) => Validation(ok, Some(request))
      case NetworkError => Validation(true, Some(request))
  }

  /** The body of a reply as `res.json()` reads it: a value, or the parse error's message. */
  datatype Json<T> = Parsed(value: T) | Malformed(message: string)

  /** The body of a refused login: `data.error`, absent or present. */
  datatype ErrorBody = ErrorBody(error: Option<string>)

  /**
   * The outcome of `POST /owner/api/auth`: an ok reply with its body, a refusal with its
   * status and body, or a `fetch` that rejected (a network failure) with its message.
   */
  datatype LoginReply =
    | Accepted(auth: Json<AuthResponse>)
    | Refused(status: int, error: Json<ErrorBody>)
    | NetworkFailure(message: string)

  /** `data.error || \`Login failed (${res.status})\``. */
  function RefusalMessage(status: int, body: Json<ErrorBody>): (r: string)
    ensures r != ""
    ensures (body.Parsed? && body.value.error.Some? && body.value.error.value != "") ==> r == body.value.error.value
  {
    match body
    case Parsed(ErrorBody(Some(e))) => if e != "" then e else "Login failed (" + Text.IntToDecimal(status) + ")"
    case _ => "Login failed (" + Text.IntToDecimal(status) + ")"
  }

  /** What `login` returns or throws for a reply. */
  function LoginResult(reply: LoginReply): (r: Result<AuthResponse, string>)
    ensures r.Success? <==> reply.Accepted? && reply.auth.Parsed?
    ensures r.Success? ==> r.value == reply.auth.value
    ensures reply.Refused? ==> r == Failure(RefusalMessage(reply.status, reply.error))
    ensures reply.Accepted? && reply.auth.Malformed? ==> r == Failure(reply.auth.message)
    ensures reply.NetworkFailure? ==> r == Failure(reply.message)
  {
    match reply
    case Accepted(Parsed(auth)) => Success(auth)
    case Accepted(Malformed(message)) => Failure(message)
    case Refused(status, body) => Failure(RefusalMessage(status, body))
    case NetworkFailure(message) => Failure(message)
  }

  /** The fallback message names the status, which reads back from it. */
  lemma RefusalMessageNamesStatus(status: int, body: Json<ErrorBody>)
    ensures RefusalMessage(status, body) != ""
    ensures (body.Parsed? && body.value.error.Some? && body.value.error.value != "") ==>
      RefusalMessage(status, body) == body.value.error.value
    ensures !(body.Parsed? && body.value.error.Some? && body.value.error.value != "") ==>
      var msg := RefusalMessage(status, body);
      |msg| > 15 && msg[..14] == "Login failed (" && msg[|msg| - 1] == ')' &&
      msg[14..|msg| - 1] == Text.IntToDecimal(status) &&
      Text.ParseInt(msg[14..|msg| - 1]) == Some(status)
  {
    if !(body.Parsed? && body.value.error.Some? && body.value.error.value != "") {
      var digits := Text.IntToDecimal(status);
      var msg := "Login failed (" + digits + ")";
      assert RefusalMessage(status, body) == msg;
      assert msg[14..|msg| - 1] == digits;
      Text.IntToDecimalRoundTrip(status);
      assert |digits| >= 1 by {
        if status < 0 { } else { }
      }
    }
  }

  /** The store after a successful login: the four auth keys hold the response's fields. */
  function StoredLogin(items: map<string, string>, auth: AuthResponse): map<string, string>
  {
    items[TokenKey := auth.token][OwnerNameKey := auth.ownerName][BotNameKey := auth.botName][TenantIdKey := auth.tenantId]
  }

  /**
   * `login`: on success writes token, owner name, bot name and tenant id in that order and
   * returns the response; on failure throws and stores nothing.
   */
  method Login(store: SecureStore, reply: LoginReply) returns (r: Result<AuthResponse, string>)
    modifies store
    ensures r == LoginResult(reply)
    ensures r.Success? ==> store.items == StoredLogin(old(store.items), r.value)
    ensures r.Failure? ==> store.items == old(store.items)
  {
    r := LoginResult(reply);
    if r.Failure? {
      return;
    }
    var data := r.value;
    store.SetItem(TokenKey, data.token);
    store.SetItem(OwnerNameKey, data.ownerName);
    store.SetItem(BotNameKey, data.botName);
    store.SetItem(TenantIdKey, data.tenantId);
  }

  /** After a successful login each auth key holds its field and every other key is unchanged. */
  lemma StoredLoginContents(items: map<string, string>, auth: AuthResponse, key: string)
    ensures var m := StoredLogin(items, auth);
      AuthKeys() <= m.Keys &&
      m[TokenKey] == auth.token && m[OwnerNameKey] == auth.ownerName &&
      m[BotNameKey] == auth.botName && m[TenantIdKey] == auth.tenantId &&
      (key !in AuthKeys() ==> (key in m <==> key in items) && (key in items ==> m[key] == items[key]))
  {
  }

  /** `logout`: deletes exactly the four auth keys. */
  method Logout(store: SecureStore)
    modifies store
    ensures store.items == old(store.items) - AuthKeys()
    ensures forall k :: k in AuthKeys() ==> k !in store.items
  {
    store.DeleteItem(TokenKey);
    store.DeleteItem(OwnerNameKey);
    store.DeleteItem(BotNameKey);
    store.DeleteItem(TenantIdKey);
  }

  /** Logging out after logging in leaves the store as it was, less any old auth keys. */
  lemma LogoutUndoesLogin(items: map<string, string>, auth: AuthResponse)
    ensures StoredLogin(items, auth) - AuthKeys() == items - AuthKeys()
  {
  }

  /** The arguments of `fetchHistory(before?, limit = 50, platform?)`. */
  datatype HistoryQuery = HistoryQuery(before: Option<int>, limit: Option<int>, platform: Option<string>)

  const DefaultLimit: int := 50

  function Keys(params: seq<(string, string)>): seq<string>
  {
    if params == [] then [] else [params[0].0] + Keys(params[1..])
  }

  /** The value of the first pair with this key. */
  function Lookup(params: seq<(string, string)>, key: string): Option<string>
  {
    if params == [] then None
    else if params[0].0 == key then Some(params[0].1)
    else Lookup(params[1..], key)
  }

  /**
   * `URLSearchParams.set`: the key now reads back the value, every other key reads back
   * what it did, and a key not yet present is appended at the end. Unlike `set`, later
   * pairs with the same key are kept; the history query sets each key once, so no such
   * pair arises.
   */
  function SetParam(params: seq<(string, string)>, key: string, value: string): (r: seq<(string, string)>)
    ensures Lookup(r, key) == Some(value)
    ensures forall k :: k != key ==> Lookup(r, k) == Lookup(params, k)
    ensures Lookup(params, key).None? ==> Keys(r) == Keys(params) + [key]
  {
    if params == [] then [(key, value)]
    else if params[0].0 == key then [(key, value)] + params[1..]
    else [params[0]] + SetParam(params[1..], key, value)
  }

  /**
   * The query of `fetchHistory`: `before` only when it is truthy (present and not 0),
   * `limit` always (50 by default), `platform` only when not empty, in that order.
   */
  predicate EncodesQuery(q: HistoryQuery, params: seq<(string, string)>)
  {
    && Keys(params) ==
      (if q.before.Some? && q.before.value != 0 then ["before"] else []) + ["limit"] +
      (if q.platform.Some? && q.platform.value != "" then ["platform"] else [])
    && Lookup(params, "before") ==
      (if q.before.Some? && q.before.value != 0 then Some(Text.IntToDecimal(q.before.value)) else None)
    && Lookup(params, "limit") == Some(Text.IntToDecimal(q.limit.GetOr(DefaultLimit)))
    && Lookup(params, "platform") ==
      (if q.platform.Some? && q.platform.value != "" then Some(q.platform.value) else None)
  }

  /** Fills the query step by step, as `fetchHistory` fills its `URLSearchParams`. */
  method HistoryParams(q: HistoryQuery) returns (params: seq<(string, string)>)
    ensures EncodesQuery(q, params)
  {
    params := [];
    if q.before.Some? && q.before.value != 0 {
      params := SetParam(params, "before", Text.IntToDecimal(q.before.value));
    }
    params := SetParam(params, "limit", Text.IntToDecimal(q.limit.GetOr(DefaultLimit)));
    if q.platform.Some? && q.platform.value != "" {
      params := SetParam(params, "platform", q.platform.value);
    }
  }

  /**
   * The outcome of the history request: a reply with its `ok` flag and its body as
   * `res.json()` reads it, or a `fetch` that rejected with its message.
   */
  datatype HistoryReply =
    | Answered(ok: bool, body: Json<HistoryResponse>)
    | NetworkFailure(message: string)

  const HistoryError: string := "Failed to fetch history"

  /**
   * `fetchHistory`: one request to the history endpoint with the query above and the auth
   * headers; a reply that is not ok throws "Failed to fetch history" without reading the
   * body, and a rejected `fetch` or an unreadable body throws its own message.
   */
  method FetchHistory(q: HistoryQuery, token: Option<string>, reply: HistoryReply)
    returns (request: Request, r: Result<HistoryResponse, string>)
    ensures request.path == "/owner/api/history" && request.headers == AuthHeaders(token)
    ensures EncodesQuery(q, request.query)
    ensures reply.NetworkFailure? ==> r == Failure(reply.message)
    ensures reply.Answered? && !reply.ok ==> r == Failure(HistoryError)
    ensures reply.Answered? && reply.ok && reply.body.Parsed? ==> r == Success(reply.body.value)
    ensures reply.Answered? && reply.ok && reply.body.Malformed? ==> r == Failure(reply.body.message)
  {
    var params := HistoryParams(q);
    request := Request("/owner/api/history", params, AuthHeaders(token));
    match reply
    case NetworkFailure(message) =>
      r := Failure(message);
    case Answered(ok, body) =>
      if !ok {
        r := Failure(HistoryError);
      } else if body.Malformed? {
        r := Failure(body.message);
      } else {
        r := Success(body.value);
      }
  }
}
