/**
 * The secrets HTTP handlers with the web framework stripped off: each
 * handler takes what it loaded from the secrets store (None when nothing
 * was stored) and the request, and returns the response it sends together
 * with what it stores (None when it stores nothing).
 *
 * Network token validation is an oracle: a `Validator` maps a token and a
 * host to the provider the token was confirmed for, or None.
 */
module SecretsRoutes {
  import opened Wrappers
  import opened Dicts
  import opened ServiceTypes
  import opened UserSecretsModel
  import opened Storage

  datatype Response = Response(status: int, message: string)

  /** The response a handler sends and the aggregate it stores, if it stores one. */
  datatype Outcome = Outcome(response: Response, stored: Option<UserSecrets>)

  /** `validate_provider_token(token, host)`: the provider the token is confirmed for, or None. */
  type Validator = (string, Option<string>) -> Option<ProviderType>

  /** What was loaded, or a fresh `UserSecrets()` when nothing was. */
  function LoadedOrEmpty(loaded: Option<UserSecrets>): UserSecrets {
    if loaded.Some? then loaded.value else Empty
  }

  /** `x or ''` for an optional text. */
  function OrEmpty(s: Option<string>): string {
    if s.Some? then s.value else ""
  }

  // ---------------------------------------------------------------------
  // Legacy provider tokens
  // ---------------------------------------------------------------------

  /** Result of moving the legacy secrets out of the settings. */
  datatype LegacyMove = LegacyMove(returned: Option<UserSecrets>, storedSecrets: Option<UserSecrets>, storedSettings: Option<Settings>)

  /**
   * `invalidate_legacy_secrets_store`: when the settings still carry provider
   * tokens, a `UserSecrets` is built from them (the validator migrates them
   * into integrations) and stored, and the settings are stored again with an
   * empty `secrets_store`; otherwise nothing happens.
   */
  function InvalidateLegacySecretsStore<P, S, I>(settings: Settings, conv: Converters<P, S, I>): (r: LegacyMove)
    ensures r.storedSecrets == r.returned
    ensures r.returned.Some? <==> settings.secretsStore.providerTokens != []
    ensures r.storedSettings.Some? <==> r.returned.Some?
    ensures r.returned.Some? ==>
      && r.returned.value.providerTokens == settings.secretsStore.providerTokens
      && r.returned.value.customSecrets == []
      && r.returned.value.integrations == Migrate(MapProxy(settings.secretsStore.providerTokens), conv)
    ensures r.storedSettings.Some? ==>
      r.storedSettings.value.secretsStore == Empty && r.storedSettings.value.rest == settings.rest
  {
    var tokens := settings.secretsStore.providerTokens;
    if |tokens| > 0 then
      var moved := LoadDict(MapProxy(tokens), MapAbsent, None, conv);
      LegacyMove(Some(moved), Some(moved), Some(settings.(secretsStore := Empty)))
    else
      LegacyMove(None, None, None)
  }

  /** The move happens at most once: on the settings it stores, it does nothing. */
  lemma InvalidateRunsOnce<P, S, I>(settings: Settings, conv: Converters<P, S, I>)
    ensures var first := InvalidateLegacySecretsStore(settings, conv);
      first.storedSettings.Some? ==>
        InvalidateLegacySecretsStore(first.storedSettings.value, conv) == LegacyMove(None, None, None)
  {
  }

  function InvalidTokenMessage(provider: string): string {
    "Invalid token. Please make sure it is a valid " + provider + " token."
  }

  /** `process_token_validation_result`: empty exactly when the token was confirmed for the claimed provider. */
  function ProcessTokenValidationResult(confirmed: Option<ProviderType>, claimed: ProviderType): (msg: string)
    ensures msg == "" <==> confirmed == Some(claimed)
    ensures msg != "" ==> msg == InvalidTokenMessage(claimed.Value())
  {
    if confirmed.None? || confirmed.value != claimed then InvalidTokenMessage(claimed.Value()) else ""
  }

  /**
   * One iteration of the loop in `check_provider_tokens`: a present incoming
   * token is validated and its verdict replaces the message; then, if the
   * stored token for that provider has a token and a different host, it is
   * validated against the new host and a failure replaces the message.
   */
  function CheckStep(msg: string, e: (ProviderType, ProviderToken), existing: Option<Dict<ProviderType, ProviderToken>>, validate: Validator): string {
    var (p, t) := e;
    var afterIncoming := if IsSet(t.token) then ProcessTokenValidationResult(validate(t.token.value, t.host), p) else msg;
    var stored := if existing.Some? then Get(existing.value, p) else None;
    if stored.Some? && stored.value.host != t.host && IsSet(stored.value.token) then
      var confirmed := validate(stored.value.token.value, t.host);
      if confirmed != Some(p) then ProcessTokenValidationResult(confirmed, p) else afterIncoming
    else afterIncoming
  }

  /** The message `check_provider_tokens` returns: the steps folded over the incoming tokens in order. */
  function CheckMessage(incoming: Dict<ProviderType, ProviderToken>, existing: Option<Dict<ProviderType, ProviderToken>>, validate: Validator): string
    decreases |incoming|
  {
    if incoming == [] then ""
    else CheckStep(CheckMessage(incoming[..|incoming| - 1], existing, validate), incoming[|incoming| - 1], existing, validate)
  }

  method CheckProviderTokens(incoming: Dict<ProviderType, ProviderToken>, existing: Option<Dict<ProviderType, ProviderToken>>, validate: Validator)
    returns (msg: string)
    ensures msg == CheckMessage(incoming, existing, validate)
  {
    msg := "";
    var i := 0;
    while i < |incoming|
      invariant 0 <= i <= |incoming|
      invariant msg == CheckMessage(incoming[..i], existing, validate)
    {
      assert incoming[..i + 1][..i] == incoming[..i];
      var (p, t) := incoming[i];
      if IsSet(t.token) {
        var confirmed := validate(t.token.value, t.host);
        msg := ProcessTokenValidationResult(confirmed, p);
      }
      var stored := if existing.Some? then Get(existing.value, p) else None;
      if stored.Some? && stored.value.host != t.host && IsSet(stored.value.token) {
        var confirmed := validate(stored.value.token.value, t.host);
        if confirmed != Some(p) {
          msg := ProcessTokenValidationResult(confirmed, p);
        }
      }
      i := i + 1;
    }
    assert incoming[..|incoming|] == incoming;
  }

  /** The message is empty or names the provider of one of the incoming tokens. */
  lemma {:induction false} CheckMessageNamesProvider(incoming: Dict<ProviderType, ProviderToken>, existing: Option<Dict<ProviderType, ProviderToken>>, validate: Validator)
    ensures var msg := CheckMessage(incoming, existing, validate);
      msg == "" || exists i :: 0 <= i < |incoming| && msg == InvalidTokenMessage(incoming[i].0.Value())
    decreases |incoming|
  {
    if incoming != [] {
      var n := |incoming| - 1;
      CheckMessageNamesProvider(incoming[..n], existing, validate);
      var prev := CheckMessage(incoming[..n], existing, validate);
      var msg := CheckStep(prev, incoming[n], existing, validate);
      assert CheckMessage(incoming, existing, validate) == msg;
      CheckStepOutcome(prev, incoming[n], existing, validate);
      if msg != "" && msg != InvalidTokenMessage(incoming[n].0.Value()) {
        var i :| 0 <= i < n && prev == InvalidTokenMessage(incoming[..n][i].0.Value());
        assert incoming[..n][i] == incoming[i];
      }
    }
  }

  /** One step keeps the message, clears it, or names the step's own provider. */
  lemma CheckStepOutcome(msg: string, e: (ProviderType, ProviderToken), existing: Option<Dict<ProviderType, ProviderToken>>, validate: Validator)
    ensures var next := CheckStep(msg, e, existing, validate);
      next == msg || next == "" || next == InvalidTokenMessage(e.0.Value())
  {
  }

  /**
   * A later valid token resets the message: when the last incoming token is
   * confirmed for its provider and there are no stored tokens, the check
   * passes whatever the earlier tokens were.
   */
  lemma LaterValidTokenResets(incoming: Dict<ProviderType, ProviderToken>, validate: Validator)
    requires incoming != []
    requires var (p, t) := incoming[|incoming| - 1]; IsSet(t.token) && validate(t.token.value, t.host) == Some(p)
    ensures CheckMessage(incoming, None, validate) == ""
  {
    var n := |incoming| - 1;
    assert CheckMessage(incoming, None, validate) == CheckStep(CheckMessage(incoming[..n], None, validate), incoming[n], None, validate);
  }

  /** A rejected incoming token with nothing after it is reported. */
  lemma LastInvalidTokenReported(incoming: Dict<ProviderType, ProviderToken>, validate: Validator)
    requires incoming != []
    requires var (p, t) := incoming[|incoming| - 1]; IsSet(t.token) && validate(t.token.value, t.host) != Some(p)
    ensures CheckMessage(incoming, None, validate) == InvalidTokenMessage(incoming[|incoming| - 1].0.Value())
  {
    var n := |incoming| - 1;
    assert CheckMessage(incoming, None, validate) == CheckStep(CheckMessage(incoming[..n], None, validate), incoming[n], None, validate);
  }

  /**
   * The token `store_provider_tokens` keeps for an incoming provider: the
   * stored one when the request leaves the token empty and a stored token
   * exists, otherwise the incoming one; the host is the incoming host.
   */
  predicate KeepsStoredToken(t: ProviderToken, stored: Option<ProviderToken>) {
    !IsSet(t.token) && stored.Some? && IsSet(stored.value.token)
  }

  /** One merged entry: the stored token when it is kept, else the incoming one, with the incoming host. */
  function Merged(t: ProviderToken, stored: Option<ProviderToken>): (m: ProviderToken)
    ensures m.host == t.host
    ensures KeepsStoredToken(t, stored) ==> m.token == stored.value.token && m.userId == stored.value.userId
    ensures !KeepsStoredToken(t, stored) ==> m == t
  {
    (if KeepsStoredToken(t, stored) then stored.value else t).(host := t.host)
  }

  /**
   * The body of the merge loop for entry i: the stored token replaces an
   * empty incoming one, then the incoming host is set, both by assignment
   * to the provider's key, so the entry changes in place.
   */
  method MergeEntry(tokens: Dict<ProviderType, ProviderToken>, i: nat, stored: Option<ProviderToken>)
    returns (r: Dict<ProviderType, ProviderToken>)
    requires DistinctKeys(tokens) && i < |tokens|
    ensures DistinctKeys(r)
    ensures r == tokens[i := (tokens[i].0, Merged(tokens[i].1, stored))]
  {
    var (p, t) := tokens[i];
    r := tokens;
    if stored.Some? && !IsSet(t.token) {
      if IsSet(stored.value.token) {
        PutAt(r, i, stored.value);
        r := Put(r, p, stored.value);
      }
    }
    assert r == tokens[i := (p, if KeepsStoredToken(t, stored) then stored.value else t)];
    GetAt(r, i);
    var current := Get(r, p).value;
    PutAt(r, i, current.(host := t.host));
    r := Put(r, p, current.(host := t.host));
  }

  /** The incoming tokens with the first i entries merged. */
  function MergedUpTo(incoming: Dict<ProviderType, ProviderToken>, stored: Dict<ProviderType, ProviderToken>, i: nat)
    : Dict<ProviderType, ProviderToken>
  {
    seq(|incoming|, j requires 0 <= j < |incoming| =>
      if j < i then (incoming[j].0, Merged(incoming[j].1, Get(stored, incoming[j].0))) else incoming[j])
  }

  /**
   * `store_provider_tokens`. A failed check answers 401 and stores nothing.
   * Otherwise the incoming tokens are merged with the stored ones and
   * replace them: exactly the incoming providers remain, in request order,
   * each with the incoming host, keeping the stored token and user id
   * where the request omitted the token; everything else is unchanged.
   */
  method StoreProviderTokens(
    incoming: Dict<ProviderType, ProviderToken>,
    existing: Option<Dict<ProviderType, ProviderToken>>,
    loaded: Option<UserSecrets>,
    validate: Validator)
    returns (out: Outcome)
    requires DistinctKeys(incoming)
    ensures var msg := CheckMessage(incoming, existing, validate);
      msg != "" ==> out == Outcome(Response(401, msg), None)
    ensures CheckMessage(incoming, existing, validate) == "" ==>
      var base := LoadedOrEmpty(loaded);
      && out.response == Response(200, "Git providers stored")
      && out.stored.Some?
      && var merged := out.stored.value.providerTokens;
      && out.stored.value.customSecrets == base.customSecrets
      && out.stored.value.integrations == base.integrations
      && |merged| == |incoming|
      && forall i :: 0 <= i < |incoming| ==>
        var (p, t) := incoming[i];
        var stored := Get(base.providerTokens, p);
        && merged[i].0 == p
        && merged[i].1.host == t.host
        && (KeepsStoredToken(t, stored) ==>
              merged[i].1.token == stored.value.token && merged[i].1.userId == stored.value.userId)
        && (!KeepsStoredToken(t, stored) ==> merged[i].1 == t)
  {
    var msg := CheckProviderTokens(incoming, existing, validate);
    if msg != "" {
      return Outcome(Response(401, msg), None);
    }
    var base := LoadedOrEmpty(loaded);
    var tokens := incoming;
    var i := 0;
    while i < |incoming|
      invariant 0 <= i <= |incoming| && DistinctKeys(tokens)
      invariant tokens == MergedUpTo(incoming, base.providerTokens, i)
    {
      tokens := MergeEntry(tokens, i, Get(base.providerTokens, incoming[i].0));
      i := i + 1;
    }
    out := Outcome(Response(200, "Git providers stored"), Some(base.(providerTokens := tokens)));
  }

  /** `unset_provider_tokens`: clears the provider tokens of what was loaded, stores nothing when nothing was. */
  function UnsetProviderTokens(loaded: Option<UserSecrets>): (out: Outcome)
    ensures out.response == Response(200, "Unset Git provider tokens")
    ensures out.stored.Some? <==> loaded.Some?
    ensures out.stored.Some? ==>
      && out.stored.value.providerTokens == []
      && out.stored.value.customSecrets == loaded.value.customSecrets
      && out.stored.value.integrations == loaded.value.integrations
  {
    var stored := if loaded.Some? then Some(loaded.value.(providerTokens := [])) else None;
    Outcome(Response(200, "Unset Git provider tokens"), stored)
  }

  // ---------------------------------------------------------------------
  // Custom secrets
  // ---------------------------------------------------------------------

  /**
   * `load_custom_secrets_names`: the name and description of every custom
   * secret, in order, and nothing when nothing was loaded; the listing is
   * the aggregate's own descriptions projection.
   */
  method LoadCustomSecretsNames(loaded: Option<UserSecrets>) returns (names: seq<(string, string)>)
    requires loaded.Some? ==> WellFormed(loaded.value)
    ensures loaded.None? ==> names == []
    ensures loaded.Some? ==> names == GetCustomSecretsDescriptions(loaded.value)
  {
    names := [];
    if loaded.None? {
      return;
    }
    var secrets := loaded.value.customSecrets;
    var i := 0;
    while i < |secrets|
      invariant 0 <= i <= |secrets| && |names| == i
      invariant forall j :: 0 <= j < i ==> names[j] == (secrets[j].0, secrets[j].1.description)
    {
      names := names + [(secrets[i].0, secrets[i].1.description)];
      i := i + 1;
    }
    ConvertKeyPreservingPointwise(secrets, DescriptionField());
  }

  /** The custom secrets handed to the `UserSecrets` constructor: a dict of CustomSecret objects. */
  function AsSecretObjects<S>(d: Dict<string, CustomSecret>): (r: seq<(string, SecretValue<S>)>)
    ensures |r| == |d|
  {
    seq(|d|, i requires 0 <= i < |d| => (d[i].0, SecretObj(d[i].1)))
  }

  /** The conversion of a CustomSecret value returns it unchanged. */
  ghost predicate KeepsSecretObjects<P, S, I>(conv: Converters<P, S, I>) {
    forall c :: conv.secretFromValue(SecretObj(c)) == Some(c)
  }

  /** Passing a dict of CustomSecret objects through the validator gives the dict back. */
  lemma SecretObjectsReload<P, S, I>(d: Dict<string, CustomSecret>, conv: Converters<P, S, I>)
    requires DistinctKeys(d) && KeepsSecretObjects(conv)
    ensures LoadSecrets(MapDict(AsSecretObjects<S>(d)), conv) == d
  {
    var objs := AsSecretObjects<S>(d);
    ConvertKeyPreservingPointwise(objs, SecretConversion(conv));
  }

  /**
   * The rebuild shared by the three custom-secret handlers:
   * `UserSecrets(custom_secrets=..., provider_tokens=...)`. Only these two
   * fields are passed, so the integrations are re-derived by the migration.
   */
  function Rebuild<P, S, I>(secrets: Dict<string, CustomSecret>, tokens: RawTokens<P>, conv: Converters<P, S, I>): (u: UserSecrets)
    ensures u.integrations == Migrate(tokens, conv)
    ensures u.providerTokens == LoadTokens(tokens, conv)
  {
    LoadDict(tokens, MapDict(AsSecretObjects(secrets)), None, conv)
  }

  /** The rebuilt aggregate holds exactly the custom secrets it was given. */
  lemma RebuildKeepsSecrets<P, S, I>(secrets: Dict<string, CustomSecret>, tokens: RawTokens<P>, conv: Converters<P, S, I>)
    requires DistinctKeys(secrets) && KeepsSecretObjects(conv)
    ensures Rebuild(secrets, tokens, conv).customSecrets == secrets
  {
    SecretObjectsReload(secrets, conv);
  }

  /** The provider tokens handed to the rebuild: the loaded mapping, or an empty dict. */
  function TokensOf<P>(loaded: Option<UserSecrets>): RawTokens<P> {
    if loaded.Some? then MapProxy(loaded.value.providerTokens) else MapDict([])
  }

  /**
   * `create_custom_secret`: an existing name is refused with 400 and nothing
   * is stored; otherwise the secret is added (description defaulting to
   * empty) and the rebuilt aggregate stored with 201.
   */
  function CreateCustomSecret<P, S, I>(
    name: string, value: string, description: Option<string>, loaded: Option<UserSecrets>, conv: Converters<P, S, I>): (out: Outcome)
    ensures var existing := LoadedOrEmpty(loaded).customSecrets;
      HasKey(existing, name) ==> out == Outcome(Response(400, "Secret " + name + " already exists"), None)
    ensures var existing := LoadedOrEmpty(loaded).customSecrets;
      !HasKey(existing, name) ==>
        && out.response == Response(201, "Secret created successfully")
        && out.stored == Some(Rebuild(existing + [(name, CustomSecret(value, OrEmpty(description)))], TokensOf(loaded), conv))
  {
    var existing := if loaded.Some? then loaded.value.customSecrets else [];
    if HasKey(existing, name) then
      Outcome(Response(400, "Secret " + name + " already exists"), None)
    else
      var secrets := Put(existing, name, CustomSecret(value, OrEmpty(description)));
      Outcome(Response(201, "Secret created successfully"), Some(Rebuild(secrets, TokensOf(loaded), conv)))
  }

  /**
   * After a successful create, the stored aggregate holds the earlier
   * secrets followed by the new one, keeps the provider tokens, and has its
   * integrations re-derived from those tokens.
   */
  lemma CreateAppendsSecret<P, S, I>(
    name: string, value: string, description: Option<string>, loaded: Option<UserSecrets>, conv: Converters<P, S, I>)
    requires loaded.Some? ==> WellFormed(loaded.value)
    requires KeepsSecretObjects(conv)
    ensures var out := CreateCustomSecret(name, value, description, loaded, conv);
      var before := LoadedOrEmpty(loaded);
      out.stored.Some? ==>
        && out.stored.value.customSecrets == before.customSecrets + [(name, CustomSecret(value, OrEmpty(description)))]
        && out.stored.value.providerTokens == before.providerTokens
        && out.stored.value.integrations == Migrate(TokensOf<P>(loaded), conv)
  {
    var before := LoadedOrEmpty(loaded);
    if !HasKey(before.customSecrets, name) {
      SecretObjectsReload(Put(before.customSecrets, name, CustomSecret(value, OrEmpty(description))), conv);
    }
  }

  /**
   * `update_custom_secret`. Nothing loaded: 200 and nothing stored. An
   * unknown id: 404. Renaming onto another existing name: 400. Otherwise
   * the secret's value moves, with the new description, to the new name at
   * the end of the dict, and the rebuilt aggregate is stored with 200.
   */
  function UpdateCustomSecret<P, S, I>(
    secretId: string, name: string, description: Option<string>, loaded: Option<UserSecrets>, conv: Converters<P, S, I>): (out: Outcome)
    requires loaded.Some? ==> WellFormed(loaded.value)
    ensures loaded.None? ==> out == Outcome(Response(200, "Secret updated successfully"), None)
    ensures loaded.Some? && !HasKey(loaded.value.customSecrets, secretId) ==>
      out == Outcome(Response(404, "Secret with ID " + secretId + " not found"), None)
    ensures loaded.Some? && HasKey(loaded.value.customSecrets, secretId) ==>
      var existing := loaded.value.customSecrets;
      var rest := Pop(existing, secretId);
      if name != secretId && HasKey(rest, name) then
        out == Outcome(Response(400, "Secret " + name + " already exists"), None)
      else
        && out.response == Response(200, "Secret updated successfully")
        && out.stored == Some(Rebuild(
             rest + [(name, CustomSecret(Get(existing, secretId).value.secret, OrEmpty(description)))],
             MapProxy(loaded.value.providerTokens), conv))
  {
    if loaded.None? then
      Outcome(Response(200, "Secret updated successfully"), None)
    else
      var existing := loaded.value.customSecrets;
      if !HasKey(existing, secretId) then
        Outcome(Response(404, "Secret with ID " + secretId + " not found"), None)
      else
        var previous := Get(existing, secretId).value;
        var rest := Pop(existing, secretId);
        if name != secretId && HasKey(rest, name) then
          Outcome(Response(400, "Secret " + name + " already exists"), None)
        else
          assert !HasKey(rest, name) by {
            PopGet(existing, secretId);
          }
          var secrets := Put(rest, name, CustomSecret(previous.secret, OrEmpty(description)));
          Outcome(Response(200, "Secret updated successfully"), Some(Rebuild(secrets, MapProxy(loaded.value.providerTokens), conv)))
  }

  /**
   * A successful update leaves the other secrets as they were, drops the
   * old name, and gives the new name the old value with the new description.
   */
  lemma UpdateMovesSecret<P, S, I>(
    secretId: string, name: string, description: Option<string>, u: UserSecrets, conv: Converters<P, S, I>, other: string)
    requires WellFormed(u) && KeepsSecretObjects(conv)
    requires other != secretId && other != name
    ensures var out := UpdateCustomSecret(secretId, name, description, Some(u), conv);
      out.stored.Some? ==>
        var after := out.stored.value.customSecrets;
        && Get(after, name) == Some(CustomSecret(Get(u.customSecrets, secretId).value.secret, OrEmpty(description)))
        && (name != secretId ==> !HasKey(after, secretId))
        && Get(after, other) == Get(u.customSecrets, other)
        && after[|after| - 1].0 == name
        && out.stored.value.providerTokens == u.providerTokens
  {
    var existing := u.customSecrets;
    var out := UpdateCustomSecret(secretId, name, description, Some(u), conv);
    if out.stored.Some? {
      var entry := CustomSecret(Get(existing, secretId).value.secret, OrEmpty(description));
      var secrets := Pop(existing, secretId) + [(name, entry)];
      MoveEntry(existing, secretId, name, entry, other);
      RebuildKeepsSecrets(secrets, MapProxy(u.providerTokens), conv);
    }
  }

  /** Popping one key and appending another: the appended key holds its value, the popped one is gone, the rest stay. */
  lemma MoveEntry<V>(d: Dict<string, V>, from: string, to: string, v: V, other: string)
    requires DistinctKeys(d) && !(to != from && HasKey(Pop(d, from), to))
    requires other != from && other != to
    ensures var after := Pop(d, from) + [(to, v)];
      && DistinctKeys(after)
      && Get(after, to) == Some(v)
      && (to != from ==> !HasKey(after, from))
      && Get(after, other) == Get(d, other)
  {
    var rest := Pop(d, from);
    PopGet(d, from);
    assert rest + [(to, v)] == Put(rest, to, v);
    PutGet(rest, to, v);
  }

  /**
   * `delete_custom_secret`. Nothing loaded: 200 and nothing stored. An
   * unknown id: 404. Otherwise the secret is removed and the rebuilt
   * aggregate stored with 200.
   */
  function DeleteCustomSecret<P, S, I>(secretId: string, loaded: Option<UserSecrets>, conv: Converters<P, S, I>): (out: Outcome)
    ensures loaded.None? ==> out == Outcome(Response(200, "Secret deleted successfully"), None)
    ensures loaded.Some? && !HasKey(loaded.value.customSecrets, secretId) ==>
      out == Outcome(Response(404, "Secret with ID " + secretId + " not found"), None)
    ensures loaded.Some? && HasKey(loaded.value.customSecrets, secretId) ==>
      && out.response == Response(200, "Secret deleted successfully")
      && out.stored == Some(Rebuild(Pop(loaded.value.customSecrets, secretId), MapProxy(loaded.value.providerTokens), conv))
  {
    if loaded.None? then
      Outcome(Response(200, "Secret deleted successfully"), None)
    else if !HasKey(loaded.value.customSecrets, secretId) then
      Outcome(Response(404, "Secret with ID " + secretId + " not found"), None)
    else
      var secrets := Pop(loaded.value.customSecrets, secretId);
      Outcome(Response(200, "Secret deleted successfully"), Some(Rebuild(secrets, MapProxy(loaded.value.providerTokens), conv)))
  }

  /** A successful delete removes exactly that secret and keeps every other one. */
  lemma DeleteRemovesSecret<P, S, I>(secretId: string, u: UserSecrets, conv: Converters<P, S, I>, other: string)
    requires WellFormed(u) && KeepsSecretObjects(conv) && other != secretId
    ensures var out := DeleteCustomSecret(secretId, Some(u), conv);
      out.stored.Some? ==>
        && !HasKey(out.stored.value.customSecrets, secretId)
        && Get(out.stored.value.customSecrets, other) == Get(u.customSecrets, other)
  {
    if HasKey(u.customSecrets, secretId) {
      PopGet(u.customSecrets, secretId);
      SecretObjectsReload(Pop(u.customSecrets, secretId), conv);
    }
  }

  /**
   * The rebuild passes only the provider tokens and the custom secrets, so
   * the stored integrations are not carried over: a user with an
   * integration added by hand and no provider tokens loses it on creating
   * a secret.
   */
  lemma CreateDropsIntegrations<P, S, I>(conv: Converters<P, S, I>)
    ensures var x := Integration("i", "gitea", "I", None, None, None);
      var out := CreateCustomSecret("k", "v", None, Some(UserSecrets([], [], [x])), conv);
      out.stored.Some? && out.stored.value.integrations == []
  {
    var x := Integration("i", "gitea", "I", None, None, None);
    var out := CreateCustomSecret("k", "v", None, Some(UserSecrets([], [], [x])), conv);
    assert LegacyEntries<P>(MapProxy([])) == [];
  }

  /**
   * `create_custom_secret` as evidently intended: the same answers, but the
   * new secret is added to the loaded aggregate, so the provider tokens and
   * the integrations are kept as they were.
   */
  function CreateCustomSecretIntended(name: string, value: string, description: Option<string>, loaded: Option<UserSecrets>): (out: Outcome)
    ensures var existing := LoadedOrEmpty(loaded).customSecrets;
      HasKey(existing, name) ==> out == Outcome(Response(400, "Secret " + name + " already exists"), None)
    ensures var base := LoadedOrEmpty(loaded);
      !HasKey(base.customSecrets, name) ==>
        && out.response == Response(201, "Secret created successfully")
        && out.stored.Some?
        && out.stored.value.customSecrets == base.customSecrets + [(name, CustomSecret(value, OrEmpty(description)))]
        && out.stored.value.providerTokens == base.providerTokens
        && out.stored.value.integrations == base.integrations
    ensures out.stored.Some? && WellFormed(LoadedOrEmpty(loaded)) ==> WellFormed(out.stored.value)
  {
    var base := LoadedOrEmpty(loaded);
    if HasKey(base.customSecrets, name) then
      Outcome(Response(400, "Secret " + name + " already exists"), None)
    else
      var secrets := Put(base.customSecrets, name, CustomSecret(value, OrEmpty(description)));
      Outcome(Response(201, "Secret created successfully"), Some(base.(customSecrets := secrets)))
  }

  // ---------------------------------------------------------------------
  // Integrations
  // ---------------------------------------------------------------------

  /** An integration as listed: every field but the token, and whether a token is set. */
  datatype SafeIntegration = SafeIntegration(
    id: string,
    providerType: string,
    name: string,
    host: Option<string>,
    userId: Option<string>,
    hasToken: bool)

  /**
   * `get_integrations`: 200 with one token-free record per integration, in
   * order; reading the integrations of nothing fails, which answers 500.
   */
  method GetIntegrations(loaded: Option<UserSecrets>) returns (status: int, listing: seq<SafeIntegration>)
    ensures loaded.None? ==> status == 500 && listing == []
    ensures loaded.Some? ==>
      var ints := loaded.value.integrations;
      && status == 200
      && |listing| == |ints|
      && forall i :: 0 <= i < |ints| ==>
        && listing[i].id == ints[i].id
        && listing[i].providerType == ints[i].providerType
        && listing[i].name == ints[i].name
        && listing[i].host == ints[i].host
        && listing[i].userId == ints[i].userId
        && (listing[i].hasToken <==> IsSet(ints[i].token))
  {
    if loaded.None? {
      return 500, [];
    }
    var ints := loaded.value.integrations;
    listing := [];
    var i := 0;
    while i < |ints|
      invariant 0 <= i <= |ints| && |listing| == i
      invariant forall j :: 0 <= j < i ==>
        && listing[j].id == ints[j].id
        && listing[j].providerType == ints[j].providerType
        && listing[j].name == ints[j].name
        && listing[j].host == ints[j].host
        && listing[j].userId == ints[j].userId
        && (listing[j].hasToken <==> IsSet(ints[j].token))
    {
      var x := ints[i];
      var hasToken := x.token.Some? && x.token.value != "";
      listing := listing + [SafeIntegration(x.id, x.providerType, x.name, x.host, x.userId, hasToken)];
      i := i + 1;
    }
    status := 200;
  }

  /** `validate_integration_token`: empty when there is no token or it is confirmed for the claimed provider value. */
  function ValidateIntegrationToken(providerType: string, token: Option<string>, host: Option<string>, validate: Validator): (msg: string)
    ensures msg == "" <==>
      !IsSet(token) || (validate(token.value, host).Some? && validate(token.value, host).value.Value() == providerType)
    ensures msg != "" ==> msg == InvalidTokenMessage(providerType)
  {
    if !IsSet(token) then ""
    else
      var confirmed := validate(token.value, host);
      if confirmed.None? || confirmed.value.Value() != providerType then InvalidTokenMessage(providerType) else ""
  }

  /** A claimed provider type that is no provider's value rejects every token. */
  lemma UnknownProviderTypeRejects(providerType: string, token: Option<string>, host: Option<string>, validate: Validator)
    requires ParseProviderType(providerType).None? && IsSet(token)
    ensures ValidateIntegrationToken(providerType, token, host, validate) == InvalidTokenMessage(providerType)
  {
    var confirmed := validate(token.value, host);
    if confirmed.Some? {
      ParseValue(confirmed.value);
    }
  }

  /** The body of an add or update request. */
  datatype IntegrationRequest = IntegrationRequest(
    id: string,
    providerType: string,
    name: string,
    host: Option<string>,
    token: Option<string>,
    userId: Option<string>)

  /** Integration ids are pairwise distinct. */
  ghost predicate UniqueIds(ints: seq<Integration>) {
    forall i, j :: 0 <= i < j < |ints| ==> ints[i].id != ints[j].id
  }

  /** The 401 answer, when the request carries a token that fails validation. */
  function TokenRejection(req: IntegrationRequest, validate: Validator): Option<Response> {
    if IsSet(req.token) && ValidateIntegrationToken(req.providerType, req.token, req.host, validate) != "" then
      Some(Response(401, ValidateIntegrationToken(req.providerType, req.token, req.host, validate)))
    else None
  }

  /** The token check that opens the add and update handlers. */
  method CheckRequestToken(req: IntegrationRequest, validate: Validator) returns (rejection: Option<Response>)
    ensures rejection == TokenRejection(req, validate)
  {
    if IsSet(req.token) {
      var msg := ValidateIntegrationToken(req.providerType, req.token, req.host, validate);
      if msg != "" {
        return Some(Response(401, msg));
      }
    }
    return None;
  }

  function AlreadyExists(id: string): string {
    "Integration with ID \"" + id + "\" already exists"
  }

  function NotFound(id: string): string {
    "Integration with ID \"" + id + "\" not found"
  }

  function Added(name: string): string {
    "Integration \"" + name + "\" added successfully"
  }

  function Updated(name: string): string {
    "Integration \"" + name + "\" updated successfully"
  }

  function Deleted(id: string): string {
    "Integration \"" + id + "\" deleted successfully"
  }

  /**
   * `add_integration`: a token failing validation answers 401; an id
   * already present answers 400; otherwise the new integration is appended
   * after the unchanged existing ones and stored with 201, so distinct ids
   * stay distinct.
   */
  method AddIntegration(req: IntegrationRequest, loaded: Option<UserSecrets>, validate: Validator) returns (out: Outcome)
    ensures TokenRejection(req, validate).Some? ==> out == Outcome(TokenRejection(req, validate).value, None)
    ensures TokenRejection(req, validate).None? ==>
      var base := LoadedOrEmpty(loaded);
      var ints := base.integrations;
      if exists i :: 0 <= i < |ints| && ints[i].id == req.id then
        out == Outcome(Response(400, AlreadyExists(req.id)), None)
      else
        && out.response == Response(201, Added(req.name))
        && out.stored == Some(base.(integrations :=
             ints + [Integration(req.id, req.providerType, req.name, req.host, req.token, req.userId)]))
    ensures out.stored.Some? && UniqueIds(LoadedOrEmpty(loaded).integrations) ==> UniqueIds(out.stored.value.integrations)
  {
    var rejection := CheckRequestToken(req, validate);
    if rejection.Some? {
      return Outcome(rejection.value, None);
    }
    var base := LoadedOrEmpty(loaded);
    var ints := base.integrations;
    var collides := ScanCollisionIntended(ints, req.id);
    if collides {
      return Outcome(Response(400, AlreadyExists(req.id)), None);
    }
    var added := Integration(req.id, req.providerType, req.name, req.host, req.token, req.userId);
    out := Outcome(Response(201, Added(req.name)), Some(base.(integrations := ints + [added])));
  }

  /** The entry an update writes over a matching one; an empty request token keeps the stored token. */
  function UpdatedEntry(existing: Integration, req: IntegrationRequest): (x: Integration)
    ensures x.id == req.id && x.providerType == req.providerType && x.name == req.name
    ensures x.host == req.host && x.userId == req.userId
    ensures x.token == if IsSet(req.token) then req.token else existing.token
  {
    Integration(req.id, req.providerType, req.name, req.host, if IsSet(req.token) then req.token else existing.token, req.userId)
  }

  /** Every entry with the id is rewritten in place; the others stay as they are. */
  function Replaced(ints: seq<Integration>, id: string, req: IntegrationRequest): (r: seq<Integration>)
    ensures |r| == |ints|
  {
    seq(|ints|, i requires 0 <= i < |ints| => if ints[i].id == id then UpdatedEntry(ints[i], req) else ints[i])
  }

  /** The collision test of `update_integration` as written: an entry with the new id that differs from the list's last entry. */
  predicate CollidesAsWritten(updated: seq<Integration>, newId: string)
    requires updated != []
  {
    exists k :: 0 <= k < |updated| && updated[k].id == newId && updated[k] != updated[|updated| - 1]
  }

  /** The collision the check evidently means: another entry already holds the new id. */
  predicate CollidesIntended(ints: seq<Integration>, newId: string) {
    exists k :: 0 <= k < |ints| && ints[k].id == newId
  }

  /**
   * `update_integration` as written. A token failing validation: 401.
   * Nothing loaded or no entry with the id: 404. Every matching entry is
   * rewritten in place; when the id changes and the as-written collision
   * test fires: 400. Otherwise the rewritten list is stored with 200.
   */
  method UpdateIntegration(integrationId: string, req: IntegrationRequest, loaded: Option<UserSecrets>, validate: Validator)
    returns (out: Outcome)
    ensures TokenRejection(req, validate).Some? ==> out == Outcome(TokenRejection(req, validate).value, None)
    ensures TokenRejection(req, validate).None? && loaded.None? ==> out == Outcome(Response(404, NotFound(integrationId)), None)
    ensures TokenRejection(req, validate).None? && loaded.Some? ==>
      var ints := loaded.value.integrations;
      var updated := Replaced(ints, integrationId, req);
      if !exists i :: 0 <= i < |ints| && ints[i].id == integrationId then
        out == Outcome(Response(404, NotFound(integrationId)), None)
      else if req.id != integrationId && CollidesAsWritten(updated, req.id) then
        out == Outcome(Response(400, AlreadyExists(req.id)), None)
      else
        && out.response == Response(200, Updated(req.name))
        && out.stored == Some(loaded.value.(integrations := updated))
  {
    var rejection := CheckRequestToken(req, validate);
    if rejection.Some? {
      return Outcome(rejection.value, None);
    }
    if loaded.None? {
      return Outcome(Response(404, NotFound(integrationId)), None);
    }
    var ints := loaded.value.integrations;
    var updated, found := ReplaceMatching(ints, integrationId, req);
    if !found {
      return Outcome(Response(404, NotFound(integrationId)), None);
    }
    if req.id != integrationId {
      var collides := ScanCollisionAsWritten(updated, req.id);
      if collides {
        return Outcome(Response(400, AlreadyExists(req.id)), None);
      }
    }
    out := Outcome(Response(200, Updated(req.name)), Some(loaded.value.(integrations := updated)));
  }

  /** The collision loop of `update_integration`, as written: it compares each entry with the list's last entry. */
  method ScanCollisionAsWritten(updated: seq<Integration>, newId: string) returns (collides: bool)
    requires updated != []
    ensures collides <==> CollidesAsWritten(updated, newId)
  {
    var k := 0;
    while k < |updated|
      invariant 0 <= k <= |updated|
      invariant forall j :: 0 <= j < k ==> !(updated[j].id == newId && updated[j] != updated[|updated| - 1])
    {
      if updated[k].id == newId && updated[k] != updated[|updated| - 1] {
        return true;
      }
      k := k + 1;
    }
    return false;
  }

  /** The collision loop as evidently intended: does any entry hold the new id. */
  method ScanCollisionIntended(ints: seq<Integration>, newId: string) returns (collides: bool)
    ensures collides <==> CollidesIntended(ints, newId)
  {
    var k := 0;
    while k < |ints|
      invariant 0 <= k <= |ints|
      invariant forall j :: 0 <= j < k ==> ints[j].id != newId
    {
      if ints[k].id == newId {
        return true;
      }
      k := k + 1;
    }
    return false;
  }

  /** The loop of `update_integration` that rewrites matching entries and records whether one matched. */
  method ReplaceMatching(ints: seq<Integration>, id: string, req: IntegrationRequest) returns (updated: seq<Integration>, found: bool)
    ensures updated == Replaced(ints, id, req)
    ensures found <==> exists i :: 0 <= i < |ints| && ints[i].id == id
  {
    updated := [];
    found := false;
    var i := 0;
    while i < |ints|
      invariant 0 <= i <= |ints| && |updated| == i
      invariant forall j :: 0 <= j < i ==> updated[j] == if ints[j].id == id then UpdatedEntry(ints[j], req) else ints[j]
      invariant found <==> exists j :: 0 <= j < i && ints[j].id == id
    {
      if ints[i].id == id {
        updated := updated + [UpdatedEntry(ints[i], req)];
        found := true;
      } else {
        updated := updated + [ints[i]];
      }
      i := i + 1;
    }
  }

  /**
   * As written, renaming any entry but the last to an id no entry holds is
   * refused: the renamed entry itself carries the new id and differs from
   * the last entry.
   */
  lemma RenameOfNonLastRejected(ints: seq<Integration>, i: nat, req: IntegrationRequest)
    requires i < |ints| - 1 && UniqueIds(ints)
    requires req.id != ints[i].id && !CollidesIntended(ints, req.id)
    ensures CollidesAsWritten(Replaced(ints, ints[i].id, req), req.id)
  {
    var updated := Replaced(ints, ints[i].id, req);
    assert updated[|ints| - 1] == ints[|ints| - 1];
    assert updated[i].id == req.id;
  }

  /**
   * The check as written still refuses a rename onto an id another entry
   * holds, unless the rewritten entry becomes identical to that entry.
   */
  lemma RenameOntoHeldIdRejected(ints: seq<Integration>, i: nat, k: nat, req: IntegrationRequest)
    requires i < |ints| && k < |ints| && i != k
    requires ints[k].id == req.id && req.id != ints[i].id
    requires UpdatedEntry(ints[i], req) != ints[k]
    ensures CollidesAsWritten(Replaced(ints, ints[i].id, req), req.id)
  {
    var updated := Replaced(ints, ints[i].id, req);
    var last := updated[|updated| - 1];
    assert updated[i] == UpdatedEntry(ints[i], req) && updated[k] == ints[k];
    if updated[i] != last {
      assert updated[i].id == req.id;
    } else {
      assert updated[k] != last;
    }
  }

  /** Two integrations `a` and `b`; renaming `a` to the unused id `c` is refused as written, though nothing collides. */
  lemma UpdateIntegrationCounterexample()
    ensures var a := Integration("a", "gitea", "A", None, None, None);
      var b := Integration("b", "gitea", "B", None, None, None);
      var req := IntegrationRequest("c", "gitea", "A", None, None, None);
      && CollidesAsWritten(Replaced([a, b], "a", req), "c")
      && !CollidesIntended([a, b], "c")
  {
    var a := Integration("a", "gitea", "A", None, None, None);
    var b := Integration("b", "gitea", "B", None, None, None);
    var req := IntegrationRequest("c", "gitea", "A", None, None, None);
    assert Replaced([a, b], "a", req)[0].id == "c";
  }

  /** With distinct ids, rewriting the one entry that has an id to a new id no other entry holds keeps ids distinct. */
  lemma ReplacedKeepsIdsUnique(ints: seq<Integration>, id: string, req: IntegrationRequest)
    requires UniqueIds(ints)
    requires req.id != id ==> !CollidesIntended(ints, req.id)
    ensures UniqueIds(Replaced(ints, id, req))
  {
    var r := Replaced(ints, id, req);
    forall i, j | 0 <= i < j < |r|
      ensures r[i].id != r[j].id
    {
      if ints[i].id == id && ints[j].id == id {
        assert false;
      }
    }
  }

  /**
   * `update_integration` as evidently intended: identical except that a
   * rename is refused exactly when another integration already holds the
   * new id, so distinct ids stay distinct and any entry may be renamed.
   */
  method UpdateIntegrationIntended(integrationId: string, req: IntegrationRequest, loaded: Option<UserSecrets>, validate: Validator)
    returns (out: Outcome)
    ensures TokenRejection(req, validate).Some? ==> out == Outcome(TokenRejection(req, validate).value, None)
    ensures TokenRejection(req, validate).None? && loaded.None? ==> out == Outcome(Response(404, NotFound(integrationId)), None)
    ensures TokenRejection(req, validate).None? && loaded.Some? ==>
      var ints := loaded.value.integrations;
      if !exists i :: 0 <= i < |ints| && ints[i].id == integrationId then
        out == Outcome(Response(404, NotFound(integrationId)), None)
      else if req.id != integrationId && CollidesIntended(ints, req.id) then
        out == Outcome(Response(400, AlreadyExists(req.id)), None)
      else
        && out.response == Response(200, Updated(req.name))
        && out.stored == Some(loaded.value.(integrations := Replaced(ints, integrationId, req)))
    ensures loaded.Some? && out.stored.Some? && UniqueIds(loaded.value.integrations) ==> UniqueIds(out.stored.value.integrations)
  {
    var rejection := CheckRequestToken(req, validate);
    if rejection.Some? {
      return Outcome(rejection.value, None);
    }
    if loaded.None? {
      return Outcome(Response(404, NotFound(integrationId)), None);
    }
    var ints := loaded.value.integrations;
    var updated, found := ReplaceMatching(ints, integrationId, req);
    if !found {
      return Outcome(Response(404, NotFound(integrationId)), None);
    }
    if req.id != integrationId {
      var collides := ScanCollisionIntended(ints, req.id);
      if collides {
        return Outcome(Response(400, AlreadyExists(req.id)), None);
      }
    }
    if UniqueIds(ints) {
      ReplacedKeepsIdsUnique(ints, integrationId, req);
    }
    out := Outcome(Response(200, Updated(req.name)), Some(loaded.value.(integrations := updated)));
  }

  /** One item of the delete loop: entries with the id are skipped. */
  function DropId(id: string): Integration -> Option<Integration> {
    (x: Integration) => if x.id == id then None else Some(x)
  }

  /** The integrations left by `delete_integration`: the others, in order. */
  function WithoutId(ints: seq<Integration>, id: string): seq<Integration> {
    FilterMap(ints, DropId(id))
  }

  /** What the delete keeps is exactly the entries with another id. */
  lemma {:induction false} WithoutIdExact(ints: seq<Integration>, id: string)
    ensures forall x :: x in WithoutId(ints, id) <==> x in ints && x.id != id
  {
    if ints != [] {
      WithoutIdExact(ints[1..], id);
      assert ints == [ints[0]] + ints[1..];
    }
  }

  /** With no entry holding the id, nothing is removed. */
  lemma WithoutAbsentId(ints: seq<Integration>, id: string)
    requires forall i :: 0 <= i < |ints| ==> ints[i].id != id
    ensures WithoutId(ints, id) == ints
  {
    FilterMapIdentity(ints, DropId(id));
  }

  /** The loop of `delete_integration`: entries with the id are skipped, and whether one was is recorded. */
  method DropMatching(ints: seq<Integration>, id: string) returns (kept: seq<Integration>, found: bool)
    ensures kept == WithoutId(ints, id)
    ensures found <==> exists i :: 0 <= i < |ints| && ints[i].id == id
  {
    kept := [];
    found := false;
    var i := 0;
    while i < |ints|
      invariant 0 <= i <= |ints|
      invariant kept == WithoutId(ints[..i], id)
      invariant found <==> exists j :: 0 <= j < i && ints[j].id == id
    {
      FilterMapSnoc(ints[..i], ints[i], DropId(id));
      assert ints[..i + 1] == ints[..i] + [ints[i]];
      if ints[i].id == id {
        found := true;
      } else {
        kept := kept + [ints[i]];
      }
      i := i + 1;
    }
    assert ints[..|ints|] == ints;
  }

  /**
   * `delete_integration`: nothing loaded or no entry with the id answers
   * 404 and stores nothing; otherwise every entry with the id is removed,
   * the others kept in order, and the result stored with 200.
   */
  method DeleteIntegration(integrationId: string, loaded: Option<UserSecrets>) returns (out: Outcome)
    ensures loaded.None? ==> out == Outcome(Response(404, NotFound(integrationId)), None)
    ensures loaded.Some? ==>
      var ints := loaded.value.integrations;
      if !exists i :: 0 <= i < |ints| && ints[i].id == integrationId then
        out == Outcome(Response(404, NotFound(integrationId)), None)
      else
        && out.response == Response(200, Deleted(integrationId))
        && out.stored == Some(loaded.value.(integrations := WithoutId(ints, integrationId)))
  {
    if loaded.None? {
      return Outcome(Response(404, NotFound(integrationId)), None);
    }
    var ints := loaded.value.integrations;
    var kept, found := DropMatching(ints, integrationId);
    if !found {
      return Outcome(Response(404, NotFound(integrationId)), None);
    }
    out := Outcome(Response(200, Deleted(integrationId)), Some(loaded.value.(integrations := kept)));
  }
}
