/**
 * Forward authentication behind a proxy such as Authelia: the identity is
 * whatever the proxy put in its headers, read from a configurable header
 * name or else from a fixed list of common names. The application never
 * sees a token.
 *
 * The three header-name overrides (FORWARDED_USER_HEADER,
 * FORWARDED_EMAIL_HEADER, FORWARDED_NAME_HEADER) are parameters.
 */
module ForwardAuth {
  import opened Wrappers
  import opened UserAuthStores

  const UserFallbacks: seq<string> := ["X-Forwarded-User", "Remote-User", "X-Remote-User", "X-Auth-Request-User"]
  const EmailFallbacks: seq<string> := ["X-Forwarded-Email", "Remote-Email", "X-Remote-Email", "X-Auth-Request-Email"]
  const NameFallbacks: seq<string> :=
    ["X-Forwarded-Preferred-Username", "X-Forwarded-Name", "X-Auth-Request-Preferred-Username"]

  /**
   * The value of the first candidate, in order, that is present with a
   * non-empty value; None when there is none.
   */
  function FirstHeader(headers: Headers, candidates: seq<string>): (v: Option<string>)
    ensures v.None? || v.value != []
    decreases |candidates|
  {
    if candidates == [] then None
    else if Truthy(Header(headers, candidates[0])) then Header(headers, candidates[0])
    else FirstHeader(headers, candidates[1..])
  }

  /**
   * FirstHeader finds nothing exactly when no candidate is set, and
   * otherwise the value of a candidate that is set with none set before it.
   */
  lemma {:induction false} FirstHeaderFirstSet(headers: Headers, candidates: seq<string>)
    ensures FirstHeader(headers, candidates).None? <==>
      forall i :: 0 <= i < |candidates| ==> !Truthy(Header(headers, candidates[i]))
    ensures FirstHeader(headers, candidates).Some? ==>
      exists i :: 0 <= i < |candidates| && FirstAt(headers, candidates, i) &&
        Header(headers, candidates[i]) == FirstHeader(headers, candidates)
    decreases |candidates|
  {
    if candidates != [] {
      if Truthy(Header(headers, candidates[0])) {
        assert FirstAt(headers, candidates, 0);
      } else {
        var rest := candidates[1..];
        FirstHeaderFirstSet(headers, rest);
        assert forall i :: 1 <= i < |candidates| ==> candidates[i] == rest[i - 1];
        if FirstHeader(headers, rest).Some? {
          var i :| 0 <= i < |rest| && FirstAt(headers, rest, i) && Header(headers, rest[i]) == FirstHeader(headers, rest);
          assert FirstAt(headers, candidates, i + 1);
        }
      }
    }
  }

  /** Candidate i is truthy and no earlier candidate is. */
  ghost predicate FirstAt(headers: Headers, candidates: seq<string>, i: nat)
    requires i < |candidates|
  {
    Truthy(Header(headers, candidates[i])) && forall j :: 0 <= j < i ==> !Truthy(Header(headers, candidates[j]))
  }

  /** `_first_header`: the early-return scan over the candidates. */
  method ScanFirstHeader(headers: Headers, candidates: seq<string>) returns (v: Option<string>)
    ensures v == FirstHeader(headers, candidates)
  {
    var k := 0;
    while k < |candidates|
      invariant 0 <= k <= |candidates|
      invariant FirstHeader(headers, candidates) == FirstHeader(headers, candidates[k..])
    {
      var name := candidates[k];
      if name in headers {
        var value := Header(headers, name);
        if Truthy(value) {
          return value;
        }
      }
      assert candidates[k..][1..] == candidates[k + 1..];
      k := k + 1;
    }
    return None;
  }

  /** Appending candidates only matters when none of the first ones is set. */
  lemma {:induction false} FirstHeaderAppend(headers: Headers, a: seq<string>, b: seq<string>)
    ensures FirstHeader(headers, a + b) == if FirstHeader(headers, a).Some? then FirstHeader(headers, a) else FirstHeader(headers, b)
    decreases |a|
  {
    if a != [] {
      assert (a + b)[1..] == a[1..] + b;
      FirstHeaderAppend(headers, a[1..], b);
    } else {
      assert a + b == b;
    }
  }

  /** Header names chosen through the environment; None when the variable is unset. */
  datatype Overrides = Overrides(user: Option<string>, email: Option<string>, name: Option<string>)

  /** The user, email and display name a request carries. */
  datatype Identity = Identity(user: Option<string>, email: Option<string>, name: Option<string>)

  /**
   * One identity field: the override header's value when the override is
   * configured and that value is non-empty, otherwise the first set header
   * of the fixed list.
   */
  function IdentityField(headers: Headers, overrideName: Option<string>, fallbacks: seq<string>): (v: Option<string>)
    ensures v.None? || v.value != []
    ensures Truthy(overrideName) && Truthy(Header(headers, overrideName.value)) ==> v == Header(headers, overrideName.value)
    ensures !(Truthy(overrideName) && Truthy(Header(headers, overrideName.value))) ==> v == FirstHeader(headers, fallbacks)
  {
    var fromOverride := if Truthy(overrideName) then Header(headers, overrideName.value) else None;
    if Truthy(fromOverride) then fromOverride else FirstHeader(headers, fallbacks)
  }

  /** The identity as `_get_user_from_headers` settles it, field by field. */
  function UserFromHeaders(headers: Headers, overrides: Overrides): Identity {
    Identity(
      IdentityField(headers, overrides.user, UserFallbacks),
      IdentityField(headers, overrides.email, EmailFallbacks),
      IdentityField(headers, overrides.name, NameFallbacks))
  }

  /**
   * A configured override is consulted as if it were the first entry of
   * the fallback list.
   */
  lemma OverrideGoesFirst(headers: Headers, overrideName: string, fallbacks: seq<string>)
    requires overrideName != []
    ensures IdentityField(headers, Some(overrideName), fallbacks) == FirstHeader(headers, [overrideName] + fallbacks)
  {
    FirstHeaderAppend(headers, [overrideName], fallbacks);
    assert FirstHeader(headers, [overrideName])
      == if Truthy(Header(headers, overrideName)) then Header(headers, overrideName) else None by {
      assert [overrideName][1..] == [];
    }
  }

  /**
   * `_get_user_from_headers`: each of user, email and name starts from its
   * override header and falls back to its list when that left it unset.
   */
  method GetUserFromHeaders(headers: Headers, overrides: Overrides) returns (user: Option<string>, email: Option<string>, name: Option<string>)
    ensures Identity(user, email, name) == UserFromHeaders(headers, overrides)
  {
    user, email, name := None, None, None;
    if Truthy(overrides.user) {
      user := Header(headers, overrides.user.value);
    }
    if Truthy(overrides.email) {
      email := Header(headers, overrides.email.value);
    }
    if Truthy(overrides.name) {
      name := Header(headers, overrides.name.value);
    }
    if !Truthy(user) {
      user := ScanFirstHeader(headers, UserFallbacks);
    }
    if !Truthy(email) {
      email := ScanFirstHeader(headers, EmailFallbacks);
    }
    if !Truthy(name) {
      name := ScanFirstHeader(headers, NameFallbacks);
    }
  }

  /** `get_user_id`: the user when there is one, else the email. */
  function GetUserId(headers: Headers, overrides: Overrides): (id: Option<string>)
    ensures var found := UserFromHeaders(headers, overrides);
      id == if found.user.Some? then found.user else found.email
  {
    var found := UserFromHeaders(headers, overrides);
    if Truthy(found.user) then found.user else found.email
  }

  /**
   * `get_user_email`: the configured email header when it is set and
   * non-empty, otherwise the first set header of the fixed email list.
   */
  function GetUserEmail(headers: Headers, overrides: Overrides): (email: Option<string>)
    ensures Truthy(overrides.email) && Truthy(Header(headers, overrides.email.value)) ==>
      email == Header(headers, overrides.email.value)
    ensures !(Truthy(overrides.email) && Truthy(Header(headers, overrides.email.value))) ==>
      email == FirstHeader(headers, EmailFallbacks)
  {
    UserFromHeaders(headers, overrides).email
  }

  /** There is a user id exactly when the proxy sent a user or an email, and it is never empty. */
  lemma UserIdPresence(headers: Headers, overrides: Overrides)
    ensures var found := UserFromHeaders(headers, overrides);
      (GetUserId(headers, overrides).Some? <==> found.user.Some? || found.email.Some?) &&
      (GetUserId(headers, overrides).Some? ==> GetUserId(headers, overrides).value != [])
  {
  }

  /** With no override, a request carrying only `Remote-User` is identified by it, and the email lists are not needed. */
  lemma RemoteUserExample(value: string)
    requires value != []
    ensures GetUserId(map["Remote-User" := value], Overrides(None, None, None)) == Some(value)
  {
    var h := map["Remote-User" := value];
    assert !Truthy(Header(h, UserFallbacks[0]));
    assert FirstAt(h, UserFallbacks, 1);
  }

  /** `get_access_token`: the application never sees a token. */
  function GetAccessToken(headers: Headers): (token: Option<string>)
    ensures token.None?
  {
    None
  }

  /** `get_auth_type`: always cookie. */
  function GetAuthType(headers: Headers): (t: AuthType)
    ensures t == Cookie
  {
    Cookie
  }

  /**
   * `AutheliaForwardAuth`: the request's headers, the configured overrides
   * and the memo of the user's stores, looked up under the user id from
   * the headers.
   */
  class AutheliaForwardAuth {
    const headers: Headers
    const overrides: Overrides
    const stores: StoreCache

    /** `get_instance`: a fresh instance for the request, nothing memoised. */
    constructor (headers: Headers, overrides: Overrides)
      ensures this.headers == headers && this.overrides == overrides
      ensures fresh(stores) && stores.userId == GetUserId(headers, overrides)
      ensures stores.settingsStore.None? && stores.secretsStore.None?
      ensures stores.settings.None? && stores.userSecrets.None?
    {
      this.headers := headers;
      this.overrides := overrides;
      stores := new StoreCache(GetUserId(headers, overrides));
    }
  }
}
