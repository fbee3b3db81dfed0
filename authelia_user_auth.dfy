/**
 * Authelia single sign-on: the user's identity from the proxy's headers,
 * falling back to the claims of a Bearer JWT, which are read without
 * checking the signature.
 *
 * Decoding a payload (`base64.b64decode` then `json.loads`) is a
 * parameter: the claims, or None where either step raises ValueError.
 */
module Authelia {
  import opened Wrappers
  import opened Strs
  import opened UserAuthStores

  /** A decoded JWT payload: claim name to value. */
  type Claims = map<string, string>

  type Decoder = string -> Option<Claims>

  /**
   * The token of an `Authorization: Bearer <token>` header: the text after
   * the first space, which `Bearer ` puts at position 6.
   */
  function BearerToken(headers: Headers): (t: Option<string>)
    ensures t.Some? <==> Truthy(Header(headers, "Authorization")) && StartsWith(headers["Authorization"], "Bearer ")
    ensures t.Some? ==> t.value == headers["Authorization"][7..]
  {
    var auth := Header(headers, "Authorization");
    if Truthy(auth) && StartsWith(auth.value, "Bearer ") then
      assert auth.value[6] == ' ' && ' ' !in auth.value[..6] by {
        assert auth.value[..7] == "Bearer ";
      }
      var i := IndexOf(auth.value, ' ').GetOr(6);
      Some(auth.value[i + 1..])
    else None
  }

  /** How many `=` are appended to a payload of length n: 4 - n % 4. */
  function PadLength(n: nat): (p: nat)
    ensures 1 <= p <= 4
    ensures (n + p) % 4 == 0
    ensures n % 4 == 0 <==> p == 4
  {
    4 - n % 4
  }

  /** The payload with its padding. */
  function Padded(payload: string): (r: string)
    ensures |r| % 4 == 0
    ensures |payload| < |r| <= |payload| + 4
    ensures r[..|payload|] == payload
    ensures forall i :: |payload| <= i < |r| ==> r[i] == '='
  {
    payload + seq(PadLength(|payload|), _ => '=')
  }

  /**
   * The claims of a Bearer JWT: only a token with at least two
   * dot-separated parts is decoded, and only its second part; a token
   * that is not there, has one part, or fails to decode gives None.
   */
  function JwtClaims(headers: Headers, decode: Decoder): (c: Option<Claims>)
    ensures c.Some? ==>
      BearerToken(headers).Some? &&
      var parts := Split(BearerToken(headers).value, '.');
      |parts| >= 2 && decode(Padded(parts[1])) == c
    ensures BearerToken(headers).Some? && |Split(BearerToken(headers).value, '.')| >= 2 ==>
      c == decode(Padded(Split(BearerToken(headers).value, '.')[1]))
  {
    match BearerToken(headers)
    case None => None
    case Some(token) =>
      var parts := Split(token, '.');
      if |parts| >= 2 then decode(Padded(parts[1])) else None
  }

  /**
   * `sub or preferred_username or email`: the first truthy of the three,
   * and when none is, whatever the email lookup gave (None or empty).
   */
  function UserClaim(claims: Claims): (v: Option<string>)
    ensures Truthy(Header(claims, "sub")) ==> v == Header(claims, "sub")
    ensures !Truthy(Header(claims, "sub")) && Truthy(Header(claims, "preferred_username")) ==>
      v == Header(claims, "preferred_username")
    ensures !Truthy(Header(claims, "sub")) && !Truthy(Header(claims, "preferred_username")) ==>
      v == Header(claims, "email")
  {
    var sub := Header(claims, "sub");
    var preferred := Header(claims, "preferred_username");
    if Truthy(sub) then sub else if Truthy(preferred) then preferred else Header(claims, "email")
  }

  /** `get_user_id`: Remote-User, then X-Remote-User, then the JWT's user claim. */
  function GetUserId(headers: Headers, decode: Decoder): (id: Option<string>)
    ensures Truthy(Header(headers, "Remote-User")) ==> id == Header(headers, "Remote-User")
    ensures !Truthy(Header(headers, "Remote-User")) && Truthy(Header(headers, "X-Remote-User")) ==>
      id == Header(headers, "X-Remote-User")
    ensures !Truthy(Header(headers, "Remote-User")) && !Truthy(Header(headers, "X-Remote-User")) ==>
      id == if JwtClaims(headers, decode).Some? then UserClaim(JwtClaims(headers, decode).value) else None
  {
    var remote := Header(headers, "Remote-User");
    var xRemote := Header(headers, "X-Remote-User");
    if Truthy(remote) then remote
    else if Truthy(xRemote) then xRemote
    else
      match JwtClaims(headers, decode)
      case Some(claims) => UserClaim(claims)
      case None => None
  }

  /** `get_user_email`: Remote-Email, then X-Remote-Email, then the JWT's email claim. */
  function GetUserEmail(headers: Headers, decode: Decoder): (email: Option<string>)
    ensures Truthy(Header(headers, "Remote-Email")) ==> email == Header(headers, "Remote-Email")
    ensures !Truthy(Header(headers, "Remote-Email")) && Truthy(Header(headers, "X-Remote-Email")) ==>
      email == Header(headers, "X-Remote-Email")
    ensures !Truthy(Header(headers, "Remote-Email")) && !Truthy(Header(headers, "X-Remote-Email")) ==>
      email == if JwtClaims(headers, decode).Some? then Header(JwtClaims(headers, decode).value, "email") else None
  {
    var remote := Header(headers, "Remote-Email");
    var xRemote := Header(headers, "X-Remote-Email");
    if Truthy(remote) then remote
    else if Truthy(xRemote) then xRemote
    else
      match JwtClaims(headers, decode)
      case Some(claims) => Header(claims, "email")
      case None => None
  }

  /** `get_access_token`: the Bearer token, else a non-empty X-Access-Token, else None. */
  function GetAccessToken(headers: Headers): (token: Option<string>)
    ensures BearerToken(headers).Some? ==> token == BearerToken(headers)
    ensures BearerToken(headers).None? && Truthy(Header(headers, "X-Access-Token")) ==>
      token == Header(headers, "X-Access-Token")
    ensures BearerToken(headers).None? && !Truthy(Header(headers, "X-Access-Token")) ==> token.None?
  {
    match BearerToken(headers)
    case Some(t) => Some(t)
    case None =>
      var custom := Header(headers, "X-Access-Token");
      if Truthy(custom) then custom else None
  }

  /** `get_auth_type`: BEARER exactly when the Authorization header starts with `Bearer `. */
  function GetAuthType(headers: Headers): (t: AuthType)
    ensures t == Bearer <==> "Authorization" in headers && StartsWith(headers["Authorization"], "Bearer ")
  {
    var auth := Header(headers, "Authorization");
    if Truthy(auth) && StartsWith(auth.value, "Bearer ") then Bearer else Cookie
  }

  /**
   * A Bearer request's access token is the Authorization header's text
   * after `Bearer `; any other request's token is its X-Access-Token.
   */
  lemma AuthTypeDecidesToken(headers: Headers)
    ensures GetAuthType(headers) == Bearer ==> GetAccessToken(headers) == Some(headers["Authorization"][7..])
    ensures GetAuthType(headers) == Cookie ==>
      GetAccessToken(headers) == if Truthy(Header(headers, "X-Access-Token")) then Header(headers, "X-Access-Token") else None
  {
  }

  /**
   * A non-empty user id comes from one of the two user headers or from
   * the `sub`, `preferred_username` or `email` claim of the Bearer JWT.
   */
  lemma UserIdSource(headers: Headers, decode: Decoder)
    requires Truthy(GetUserId(headers, decode))
    ensures var id := GetUserId(headers, decode).value;
      ("Remote-User" in headers && headers["Remote-User"] == id) ||
      ("X-Remote-User" in headers && headers["X-Remote-User"] == id) ||
      (JwtClaims(headers, decode).Some? &&
       exists k :: k in JwtClaims(headers, decode).value && JwtClaims(headers, decode).value[k] == id &&
         (k == "sub" || k == "preferred_username" || k == "email"))
  {
    var id := GetUserId(headers, decode).value;
    if !Truthy(Header(headers, "Remote-User")) && !Truthy(Header(headers, "X-Remote-User")) {
      var claims := JwtClaims(headers, decode).value;
      if Truthy(Header(claims, "sub")) {
        assert claims["sub"] == id;
      } else if Truthy(Header(claims, "preferred_username")) {
        assert claims["preferred_username"] == id;
      } else {
        assert claims["email"] == id;
      }
    }
  }

  /**
   * With neither user headers nor email headers, and a JWT whose `sub` and
   * `preferred_username` are empty or absent, the user id is the email.
   */
  lemma UserIdFallsBackToEmail(headers: Headers, decode: Decoder)
    requires !Truthy(Header(headers, "Remote-User")) && !Truthy(Header(headers, "X-Remote-User"))
    requires !Truthy(Header(headers, "Remote-Email")) && !Truthy(Header(headers, "X-Remote-Email"))
    requires JwtClaims(headers, decode).Some? ==>
      !Truthy(Header(JwtClaims(headers, decode).value, "sub")) &&
      !Truthy(Header(JwtClaims(headers, decode).value, "preferred_username"))
    ensures GetUserId(headers, decode) == GetUserEmail(headers, decode)
  {
  }

  /** A request with no headers has no user, no email, no access token, and cookie authentication. */
  lemma NoHeadersNoIdentity(decode: Decoder)
    ensures GetUserId(map[], decode).None? && GetUserEmail(map[], decode).None?
    ensures GetAccessToken(map[]).None? && GetAuthType(map[]) == Cookie
  {
  }

  /** The user and email header examples: Remote-User, X-Remote-User and Remote-Email. */
  lemma IdentityHeaderExamples(decode: Decoder)
    ensures GetUserId(map["Remote-User" := "testuser"], decode) == Some("testuser")
    ensures GetUserId(map["X-Remote-User" := "testuser2"], decode) == Some("testuser2")
    ensures GetUserEmail(map["Remote-Email" := "test@example.com"], decode) == Some("test@example.com")
  {
    assert "Remote-User" != "X-Remote-User" by { assert "Remote-User"[0] != "X-Remote-User"[0]; }
  }

  /** `Authorization: Bearer <t>` gives the token t and bearer authentication. */
  lemma BearerHeaderGivesToken(token: string)
    ensures GetAccessToken(map["Authorization" := "Bearer " + token]) == Some(token)
    ensures GetAuthType(map["Authorization" := "Bearer " + token]) == Bearer
  {
    var auth := "Bearer " + token;
    assert auth[..7] == "Bearer ";
    assert auth[7..] == token;
  }

  /** Without an Authorization header, a non-empty X-Access-Token is the token, with cookie authentication. */
  lemma AccessTokenHeaderGivesToken(token: string)
    requires token != []
    ensures GetAccessToken(map["X-Access-Token" := token]) == Some(token)
    ensures GetAuthType(map["X-Access-Token" := token]) == Cookie
  {
    assert "Authorization" != "X-Access-Token" by { assert "Authorization"[0] != "X-Access-Token"[0]; }
  }

  /**
   * `AutheliaUserAuth`: the request's headers and the memo of the user's
   * stores, which looks stores up under the user id from the headers.
   */
  class AutheliaUserAuth {
    const headers: Headers
    const decode: Decoder
    const stores: StoreCache

    /** `get_instance`: a fresh instance for the request, nothing memoised. */
    constructor (headers: Headers, decode: Decoder)
      ensures this.headers == headers && this.decode == decode
      ensures fresh(stores) && stores.userId == GetUserId(headers, decode)
      ensures stores.settingsStore.None? && stores.secretsStore.None?
      ensures stores.settings.None? && stores.userSecrets.None?
    {
      this.headers := headers;
      this.decode := decode;
      stores := new StoreCache(GetUserId(headers, decode));
    }
  }
}
