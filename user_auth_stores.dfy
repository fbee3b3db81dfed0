/**
 * What the two proxy-header user-auth classes share: request headers as an
 * exact-key map, Python truthiness of a header value, the auth types, and
 * the per-request memo of the user's settings store, secrets store,
 * settings and secrets.
 *
 * Both classes hold the same memo fields and getters; here they are one
 * class, created with the user id the owning auth class derives from the
 * headers. The store lookups (`get_instance`), `load` and the config merge
 * are parameters.
 */
module UserAuthStores {
  import opened Wrappers
  import opened Dicts
  import opened ServiceTypes
  import opened UserSecretsModel
  import opened Storage

  type Headers = map<string, string>

  /** `headers.get(name)`. */
  function Header(headers: Headers, name: string): Option<string> {
    if name in headers then Some(headers[name]) else None
  }

  /** A header value that passes `if value:`: present and non-empty. */
  predicate Truthy(v: Option<string>) {
    v.Some? && v.value != []
  }

  datatype AuthType = Bearer | Cookie

  const SettingsStoreMissing := "Failed to get settings store instance"
  const SecretsStoreMissing := "Failed to get secrets store instance"

  /** `get_instance(config, user_id)`: a store, or None. */
  type StoreLookup = Option<string> -> Option<StoreHandle>

  /**
   * The memo: each store is looked up at most once successfully and kept;
   * settings and secrets are reused only when a previous load produced
   * some (a loaded model is truthy, None is not).
   */
  class StoreCache {
    const userId: Option<string>
    var settingsStore: Option<StoreHandle>
    var secretsStore: Option<StoreHandle>
    var settings: Option<Settings>
    var userSecrets: Option<UserSecrets>

    constructor (userId: Option<string>)
      ensures this.userId == userId
      ensures settingsStore.None? && secretsStore.None? && settings.None? && userSecrets.None?
    {
      this.userId := userId;
      settingsStore := None;
      secretsStore := None;
      settings := None;
      userSecrets := None;
    }

    /**
     * `get_user_settings_store`: the kept store, else the looked-up one,
     * which is kept; a missing instance is a ValueError and keeps nothing.
     */
    method GetUserSettingsStore(getInstance: StoreLookup) returns (r: Result<StoreHandle, string>)
      modifies this
      ensures settingsStore == if old(settingsStore).Some? then old(settingsStore) else getInstance(userId)
      ensures r.Success? <==> settingsStore.Some?
      ensures r.Success? ==> settingsStore == Some(r.value)
      ensures r.Failure? ==> r.error == SettingsStoreMissing
      ensures secretsStore == old(secretsStore) && settings == old(settings) && userSecrets == old(userSecrets)
    {
      if settingsStore.Some? {
        return Success(settingsStore.value);
      }
      var found := getInstance(userId);
      if found.None? {
        return Failure(SettingsStoreMissing);
      }
      settingsStore := found;
      r := Success(found.value);
    }

    /** `get_secrets_store`: as GetUserSettingsStore, for the secrets store. */
    method GetSecretsStore(getInstance: StoreLookup) returns (r: Result<StoreHandle, string>)
      modifies this
      ensures secretsStore == if old(secretsStore).Some? then old(secretsStore) else getInstance(userId)
      ensures r.Success? <==> secretsStore.Some?
      ensures r.Success? ==> secretsStore == Some(r.value)
      ensures r.Failure? ==> r.error == SecretsStoreMissing
      ensures settingsStore == old(settingsStore) && settings == old(settings) && userSecrets == old(userSecrets)
    {
      if secretsStore.Some? {
        return Success(secretsStore.value);
      }
      var found := getInstance(userId);
      if found.None? {
        return Failure(SecretsStoreMissing);
      }
      secretsStore := found;
      r := Success(found.value);
    }

    /**
     * `get_user_settings`: kept settings are returned without touching a
     * store; otherwise the settings store's load, merged with the config
     * when there is something, is kept (even when it is None) and returned.
     */
    method GetUserSettings(getInstance: StoreLookup, load: StoreHandle -> Option<Settings>, merge: Settings -> Settings)
      returns (r: Result<Option<Settings>, string>)
      modifies this
      ensures old(settings).Some? ==>
        r == Success(old(settings)) && settings == old(settings) && settingsStore == old(settingsStore)
      ensures old(settings).None? ==>
        settingsStore == if old(settingsStore).Some? then old(settingsStore) else getInstance(userId)
      ensures old(settings).None? && settingsStore.None? ==> r == Failure(SettingsStoreMissing) && settings.None?
      ensures old(settings).None? && settingsStore.Some? ==>
        var loaded := load(settingsStore.value);
        settings == (if loaded.Some? then Some(merge(loaded.value)) else None) && r == Success(settings)
      ensures secretsStore == old(secretsStore) && userSecrets == old(userSecrets)
    {
      if settings.Some? {
        return Success(settings);
      }
      var store := GetUserSettingsStore(getInstance);
      if store.Failure? {
        return Failure(store.error);
      }
      var loaded := load(store.value);
      if loaded.Some? {
        loaded := Some(merge(loaded.value));
      }
      settings := loaded;
      r := Success(loaded);
    }

    /**
     * `get_user_secrets`: kept secrets are returned without touching a
     * store; otherwise whatever the secrets store loads is kept and returned.
     */
    method GetUserSecrets(getInstance: StoreLookup, load: StoreHandle -> Option<UserSecrets>)
      returns (r: Result<Option<UserSecrets>, string>)
      modifies this
      ensures old(userSecrets).Some? ==>
        r == Success(old(userSecrets)) && userSecrets == old(userSecrets) && secretsStore == old(secretsStore)
      ensures old(userSecrets).None? ==>
        secretsStore == if old(secretsStore).Some? then old(secretsStore) else getInstance(userId)
      ensures old(userSecrets).None? && secretsStore.None? ==> r == Failure(SecretsStoreMissing) && userSecrets.None?
      ensures old(userSecrets).None? && secretsStore.Some? ==>
        userSecrets == load(secretsStore.value) && r == Success(userSecrets)
      ensures settingsStore == old(settingsStore) && settings == old(settings)
    {
      if userSecrets.Some? {
        return Success(userSecrets);
      }
      var store := GetSecretsStore(getInstance);
      if store.Failure? {
        return Failure(store.error);
      }
      var loaded := load(store.value);
      userSecrets := loaded;
      r := Success(loaded);
    }

    /** `get_provider_tokens`: the provider tokens of the user's secrets, None when there are none. */
    method GetProviderTokens(getInstance: StoreLookup, load: StoreHandle -> Option<UserSecrets>)
      returns (r: Result<Option<Dict<ProviderType, ProviderToken>>, string>)
      modifies this
      ensures r.Failure? <==> old(userSecrets).None? && userSecrets.None? && secretsStore.None?
      ensures r.Success? ==>
        r.value == if userSecrets.Some? then Some(userSecrets.value.providerTokens) else None
      ensures old(userSecrets).Some? ==> userSecrets == old(userSecrets) && secretsStore == old(secretsStore)
      ensures old(userSecrets).None? ==>
        secretsStore == if old(secretsStore).Some? then old(secretsStore) else getInstance(userId)
      ensures old(userSecrets).None? && secretsStore.Some? ==> userSecrets == load(secretsStore.value)
      ensures settingsStore == old(settingsStore) && settings == old(settings)
    {
      var secrets := GetUserSecrets(getInstance, load);
      if secrets.Failure? {
        return Failure(secrets.error);
      }
      if secrets.value.None? {
        return Success(None);
      }
      r := Success(Some(secrets.value.value.providerTokens));
    }
  }
}
