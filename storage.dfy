/**
 * What the handlers and the user-auth classes get back from storage: a
 * store instance, and the application settings that used to carry the
 * secrets before they moved to a store of their own.
 */
module Storage {
  import opened UserSecretsModel

  /** A settings or secrets store instance, as a store class's `get_instance` returns it. */
  datatype StoreHandle = StoreHandle(id: nat)

  /** Application settings: the legacy `secrets_store` field, and every other field carried along unchanged. */
  datatype Settings = Settings(secretsStore: UserSecrets, rest: seq<(string, string)>)
}
