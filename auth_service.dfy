/**
 * Token and user persistence (src/services/authService.ts).
 *
 * Browser storage is a map from key to text. The stored token and user are
 * JSON text; reading them back casts whatever `JSON.parse` returns without
 * checking its shape, so the read functions return the parsed JSON value.
 * `JSON.parse("null")` gives `null`, which callers cannot tell from "nothing
 * stored", so a stored `null` reads as `None` too.
 */
module AuthService {
  import opened Wrappers
  import opened Json

  const TokenKey := "drawsync_auth_token"
  const UserKey := "drawsync_user"

  datatype AuthToken = AuthToken(
    accessToken: string,
    idToken: string,
    refreshToken: Option<string>,
    expiresIn: int,
    tokenType: string)

  datatype User = User(username: string, email: Option<string>)

  /** `JSON.stringify` drops a missing optional field. */
  function TokenJson(t: AuthToken): Json {
    var base := map["access_token" := JStr(t.accessToken), "id_token" := JStr(t.idToken),
                    "expires_in" := JNum(t.expiresIn), "token_type" := JStr(t.tokenType)];
    JObj(if t.refreshToken.Some? then base["refresh_token" := JStr(t.refreshToken.value)] else base)
  }

  function UserJson(u: User): Json {
    var base := map["username" := JStr(u.username)];
    JObj(if u.email.Some? then base["email" := JStr(u.email.value)] else base)
  }

  function StringField(j: Json, key: string): Option<string> {
    match Get(j, key)
    case Some(JStr(s)) => Some(s)
    case _ => None
  }

  /** Reading a token's fields back out of its JSON form. */
  function TokenOf(j: Json): (t: Option<AuthToken>) {
    var a, i, ty := StringField(j, "access_token"), StringField(j, "id_token"), StringField(j, "token_type");
    var e := Get(j, "expires_in");
    if a.None? || i.None? || ty.None? || e.None? || !e.value.JNum? then None
    else Some(AuthToken(a.value, i.value, StringField(j, "refresh_token"), e.value.n, ty.value))
  }

  function UserOf(j: Json): Option<User> {
    match StringField(j, "username")
    case None => None
    case Some(name) => Some(User(name, StringField(j, "email")))
  }

  /** The JSON form of a token or user determines it. */
  lemma JsonFormsDecode(t: AuthToken, u: User)
    ensures TokenOf(TokenJson(t)) == Some(t)
    ensures UserOf(UserJson(u)) == Some(u)
  {
    var keys := ["access_token", "id_token", "expires_in", "token_type", "refresh_token"];
    assert forall i, j :: 0 <= i < j < |keys| ==> keys[i] != keys[j];
    assert "username" != "email";
  }

  /**
   * The shared read of `getToken` and `getUser`: nothing for a missing or empty
   * item, for text `JSON.parse` rejects, and for a stored `null`.
   */
  function ReadItem(items: map<string, string>, c: Codec, key: string): (r: Option<Json>)
    ensures r.Some? ==> key in items && items[key] != "" && c.parse(items[key]) == r && r.value != JNull
    ensures key in items && items[key] != "" && c.parse(items[key]).Some? && c.parse(items[key]).value != JNull ==> r == c.parse(items[key])
    ensures key !in items ==> r.None?
  {
    if key !in items || items[key] == "" then None
    else match c.parse(items[key])
      case None => None
      case Some(JNull) => None
      case Some(j) => Some(j)
  }

  /** `getToken()`: the parsed token text, nothing for a missing or empty item, a parse failure or `null`. */
  function GetToken(items: map<string, string>, c: Codec): (r: Option<Json>)
    ensures r.Some? <==> TokenKey in items && items[TokenKey] != "" && c.parse(items[TokenKey]).Some? && c.parse(items[TokenKey]).value != JNull
    ensures r.Some? ==> r == c.parse(items[TokenKey])
  {
    ReadItem(items, c, TokenKey)
  }

  /** `getUser()`: the parsed user text, nothing for a missing or empty item, a parse failure or `null`. */
  function GetUser(items: map<string, string>, c: Codec): (r: Option<Json>)
    ensures r.Some? <==> UserKey in items && items[UserKey] != "" && c.parse(items[UserKey]).Some? && c.parse(items[UserKey]).value != JNull
    ensures r.Some? ==> r == c.parse(items[UserKey])
  {
    ReadItem(items, c, UserKey)
  }

  /** `getToken()?.access_token || null`. */
  function GetAccessToken(items: map<string, string>, c: Codec): (r: Option<Json>)
    ensures r.Some? <==> GetToken(items, c).Some? && Get(GetToken(items, c).value, "access_token").Some?
                         && Truthy(Get(GetToken(items, c).value, "access_token").value)
    ensures r.Some? ==> r == Get(GetToken(items, c).value, "access_token")
  {
    match GetToken(items, c)
    case None => None
    case Some(t) =>
      match Get(t, "access_token")
      case Some(a) => if Truthy(a) then Some(a) else None
      case None => None
  }

  /** `isAuthenticated()`: a token parses and its `access_token` is present and not `null`. */
  function IsAuthenticated(items: map<string, string>, c: Codec): (b: bool)
    ensures b <==> && GetToken(items, c).Some? && GetToken(items, c).value.JObj?
                   && "access_token" in GetToken(items, c).value.fields
                   && GetToken(items, c).value.fields["access_token"] != JNull
    ensures TokenKey !in items ==> !b
  {
    var token := GetToken(items, c);
    token.Some? && Get(token.value, "access_token").Some? && Get(token.value, "access_token").value != JNull
  }

  /** JSON content type always; a bearer header exactly when there is an access token. */
  function GetAuthHeaders(items: map<string, string>, c: Codec): (h: map<string, string>)
    ensures "Content-Type" in h && h["Content-Type"] == "application/json"
    ensures "Authorization" in h <==> GetAccessToken(items, c).Some?
    ensures "Authorization" in h ==> h["Authorization"] == "Bearer " + TemplateText(GetAccessToken(items, c).value)
    ensures h.Keys <= {"Content-Type", "Authorization"}
  {
    match GetAccessToken(items, c)
    case None => map["Content-Type" := "application/json"]
    case Some(token) => map["Content-Type" := "application/json", "Authorization" := "Bearer " + TemplateText(token)]
  }

  /** A request carries a bearer header only for a session that counts as authenticated. */
  lemma HeaderImpliesAuthenticated(items: map<string, string>, c: Codec)
    ensures "Authorization" in GetAuthHeaders(items, c) ==> IsAuthenticated(items, c)
  {
  }

  /** The gap between the two checks: an empty access token counts as authenticated yet gets no bearer header. */
  lemma EmptyAccessTokenGap(items: map<string, string>, c: Codec, t: AuthToken)
    requires Lawful(c) && t.accessToken == ""
    ensures var stored := StoreToken(items, c, t);
      IsAuthenticated(stored, c) && "Authorization" !in GetAuthHeaders(stored, c)
  {
    assert "access_token" in TokenJson(t).fields;
  }

  /** What `saveToken(t)` leaves in storage. */
  function StoreToken(items: map<string, string>, c: Codec, t: AuthToken): (r: map<string, string>)
    ensures r.Keys == items.Keys + {TokenKey}
    ensures r[TokenKey] == c.stringify(TokenJson(t))
    ensures forall k :: k in items && k != TokenKey ==> r[k] == items[k]
  {
    items[TokenKey := c.stringify(TokenJson(t))]
  }

  /** What `saveUser(u)` leaves in storage. */
  function StoreUser(items: map<string, string>, c: Codec, u: User): (r: map<string, string>)
    ensures r.Keys == items.Keys + {UserKey}
    ensures r[UserKey] == c.stringify(UserJson(u))
    ensures forall k :: k in items && k != UserKey ==> r[k] == items[k]
  {
    items[UserKey := c.stringify(UserJson(u))]
  }

  /** What `removeToken()`, and so `logout()`, leaves: both keys gone. */
  function ClearSession(items: map<string, string>): (r: map<string, string>)
    ensures r.Keys == items.Keys - {TokenKey, UserKey}
    ensures forall k :: k in r ==> r[k] == items[k]
  {
    items - {TokenKey, UserKey}
  }

  /** With a lawful codec, what `saveToken` stores `getToken` reads back, and its fields are the token's. */
  lemma SaveThenGetToken(items: map<string, string>, c: Codec, t: AuthToken)
    requires Lawful(c)
    ensures GetToken(StoreToken(items, c, t), c) == Some(TokenJson(t))
    ensures TokenOf(GetToken(StoreToken(items, c, t), c).value) == Some(t)
    ensures GetUser(StoreToken(items, c, t), c) == GetUser(items, c)
    ensures GetAccessToken(StoreToken(items, c, t), c) == if t.accessToken == "" then None else Some(JStr(t.accessToken))
    ensures IsAuthenticated(StoreToken(items, c, t), c)
  {
    JsonFormsDecode(t, User("", None));
    assert "access_token" in TokenJson(t).fields;
  }

  /** With a lawful codec, what `saveUser` stores `getUser` reads back, and the token is untouched. */
  lemma SaveThenGetUser(items: map<string, string>, c: Codec, u: User)
    requires Lawful(c)
    ensures GetUser(StoreUser(items, c, u), c) == Some(UserJson(u))
    ensures UserOf(GetUser(StoreUser(items, c, u), c).value) == Some(u)
    ensures GetToken(StoreUser(items, c, u), c) == GetToken(items, c)
  {
    JsonFormsDecode(AuthToken("", "", None, 0, ""), u);
  }

  /** After `removeToken`/`logout` there is neither token nor user, no session and no bearer header; other keys stay. */
  lemma RemoveClearsSession(items: map<string, string>, c: Codec)
    ensures var r := ClearSession(items);
      && GetToken(r, c).None? && GetUser(r, c).None?
      && !IsAuthenticated(r, c)
      && GetAuthHeaders(r, c) == map["Content-Type" := "application/json"]
      && forall k :: k in items && k != TokenKey && k != UserKey ==> k in r && r[k] == items[k]
  {
  }

  /** Unreadable token text is no session at all. */
  lemma UnparsableTokenIsNoSession(items: map<string, string>, c: Codec)
    requires TokenKey in items && c.parse(items[TokenKey]).None?
    ensures GetToken(items, c).None? && !IsAuthenticated(items, c) && GetAccessToken(items, c).None?
  {
  }

  /** The storage the service writes to. */
  class AuthStore {
    var items: map<string, string>
    const codec: Codec

    constructor (items: map<string, string>, codec: Codec)
      ensures this.items == items && this.codec == codec
    {
      this.items := items;
      this.codec := codec;
    }

    method SaveToken(t: AuthToken)
      modifies this
      ensures items == StoreToken(old(items), codec, t)
    {
      items := items[TokenKey := codec.stringify(TokenJson(t))];
    }

    method SaveUser(u: User)
      modifies this
      ensures items == StoreUser(old(items), codec, u)
    {
      items := items[UserKey := codec.stringify(UserJson(u))];
    }

    method RemoveToken()
      modifies this
      ensures items == ClearSession(old(items))
    {
      items := items - {TokenKey};
      items := items - {UserKey};
    }

    method Logout()
      modifies this
      ensures items == ClearSession(old(items))
    {
      RemoveToken();
    }
  }
}
