/**
 * The per-user credential aggregate `UserSecrets`: legacy provider tokens
 * keyed by provider, named custom secrets, and the ordered list of
 * configured integrations. The aggregate is frozen; the interesting logic
 * is its load-time normalisation (a validator that runs before the fields
 * are set) and its three field serialisers.
 *
 * The validator receives loosely typed data. `RawInput` describes that
 * data: either something that is not a dict, or a dict whose three keys
 * may be absent, hold a plain dict (entries still to be converted), hold
 * an already converted read-only mapping, or hold something else. The
 * conversions of single entries live in classes that are not part of this
 * model; they are passed in as `Converters`, partial functions whose None
 * stands for the ValueError (or KeyError/AttributeError) they raise.
 */
module UserSecretsModel {
  import opened Wrappers
  import opened Dicts
  import opened ServiceTypes

  /** A `SecretStr | None` is set when it is present and non-empty (an empty SecretStr is falsy). */
  predicate IsSet(s: Option<string>) {
    s.Some? && s.value != ""
  }

  datatype ProviderToken = ProviderToken(token: Option<string>, host: Option<string>, userId: Option<string>)

  datatype CustomSecret = CustomSecret(secret: string, description: string)

  datatype Integration = Integration(
    id: string,
    providerType: string,
    name: string,
    host: Option<string>,
    token: Option<string>,
    userId: Option<string>)

  datatype UserSecrets = UserSecrets(
    providerTokens: Dict<ProviderType, ProviderToken>,
    customSecrets: Dict<string, CustomSecret>,
    integrations: seq<Integration>)

  /** `UserSecrets()`: every field at its default. */
  const Empty := UserSecrets([], [], [])

  /** The two mappings are dicts, so their keys are distinct. */
  ghost predicate WellFormed(u: UserSecrets) {
    DistinctKeys(u.providerTokens) && DistinctKeys(u.customSecrets)
  }

  // ---------------------------------------------------------------------
  // Raw input and the entry conversions
  // ---------------------------------------------------------------------

  /** A provider-token key as given: a string still to be parsed, or already a provider. */
  datatype RawKey = KeyStr(s: string) | KeyEnum(p: ProviderType)

  /** A provider-token value as given: already a ProviderToken, or data of some other shape P. */
  datatype TokenValue<P> = TokenObj(t: ProviderToken) | TokenData(d: P)

  /** A custom-secret value as given: already a CustomSecret, or data of some other shape S. */
  datatype SecretValue<S> = SecretObj(c: CustomSecret) | SecretData(d: S)

  /** An item of the `integrations` list: an Integration, a dict of shape I, or anything else. */
  datatype RawIntegration<I> = IntegrationObj(i: Integration) | IntegrationDict(d: I) | IntegrationOther

  /**
   * The value under a mapping key of the raw dict: the key is absent, or it
   * holds a plain dict of unconverted entries, a read-only mapping that is
   * taken as it is, or a value of any other type.
   */
  datatype RawMap<A, B, K, V> = MapAbsent | MapDict(entries: seq<(A, B)>) | MapProxy(proxy: Dict<K, V>) | MapOther

  type RawTokens<P> = RawMap<RawKey, TokenValue<P>, ProviderType, ProviderToken>

  type RawSecrets<S> = RawMap<string, SecretValue<S>, string, CustomSecret>

  /** What the validator is called with; `integrations` is None when the key is absent. */
  datatype RawInput<P, S, I> =
    | NotADict
    | RawDict(providerTokens: RawTokens<P>, customSecrets: RawSecrets<S>, integrations: Option<seq<RawIntegration<I>>>)

  /** The entry conversions implemented outside this model; None is the exception they raise. */
  datatype Converters<!P, !S, !I> = Converters(
    tokenFromValue: TokenValue<P> -> Option<ProviderToken>,
    secretFromValue: SecretValue<S> -> Option<CustomSecret>,
    integrationFromDict: I -> Option<Integration>,
    integrationFromLegacy: (ProviderType, ProviderToken) -> Option<Integration>)

  /** `ProviderType(key) if isinstance(key, str) else key`. */
  function ParseKey(k: RawKey): (r: Option<ProviderType>)
    ensures k.KeyEnum? ==> r == Some(k.p)
    ensures k.KeyStr? && r.Some? ==> r.value.Value() == k.s
  {
    match k
    case KeyStr(s) => ParseProviderType(s)
    case KeyEnum(p) => Some(p)
  }

  /** One provider-token entry: the key is parsed, then the value converted; either failure skips it. */
  function TokenConversion<P, S, I>(conv: Converters<P, S, I>): ((RawKey, TokenValue<P>)) -> Option<(ProviderType, ProviderToken)> {
    (e: (RawKey, TokenValue<P>)) =>
      match ParseKey(e.0)
      case None => None
      case Some(p) =>
        match conv.tokenFromValue(e.1)
        case None => None
        case Some(t) => Some((p, t))
  }

  /** One custom-secret entry: the value is converted under the same name. */
  function SecretConversion<P, S, I>(conv: Converters<P, S, I>): ((string, SecretValue<S>)) -> Option<(string, CustomSecret)> {
    (e: (string, SecretValue<S>)) =>
      match conv.secretFromValue(e.1)
      case None => None
      case Some(c) => Some((e.0, c))
  }

  /** One integrations item: objects are kept, dicts converted, anything else dropped. */
  function IntegrationConversion<P, S, I>(conv: Converters<P, S, I>): RawIntegration<I> -> Option<Integration> {
    (item: RawIntegration<I>) =>
      match item
      case IntegrationObj(i) => Some(i)
      case IntegrationDict(d) => conv.integrationFromDict(d)
      case IntegrationOther => None
  }

  /**
   * One legacy token turned into an integration: the key is parsed, the
   * value converted unless it already is a ProviderToken, then the legacy
   * conversion applied; any failure skips the entry.
   */
  function MigrationConversion<P, S, I>(conv: Converters<P, S, I>): ((RawKey, TokenValue<P>)) -> Option<Integration> {
    (e: (RawKey, TokenValue<P>)) =>
      match ParseKey(e.0)
      case None => None
      case Some(p) =>
        var token := match e.1 case TokenObj(t) => Some(t) case TokenData(_) => conv.tokenFromValue(e.1);
        match token
        case None => None
        case Some(t) => conv.integrationFromLegacy(p, t)
  }

  // ---------------------------------------------------------------------
  // The validator
  // ---------------------------------------------------------------------

  /** The provider tokens the validator sets; a field it leaves unset takes the default, an empty mapping. */
  function LoadTokens<P, S, I>(raw: RawTokens<P>, conv: Converters<P, S, I>): (d: Dict<ProviderType, ProviderToken>)
    ensures raw.MapProxy? ==> d == raw.proxy
    ensures !raw.MapDict? && !raw.MapProxy? ==> d == []
  {
    match raw
    case MapDict(entries) => ConvertEntries(entries, TokenConversion(conv))
    case MapProxy(proxy) => proxy
    case _ => []
  }

  /** The custom secrets the validator sets, with the same defaulting. */
  function LoadSecrets<P, S, I>(raw: RawSecrets<S>, conv: Converters<P, S, I>): (d: Dict<string, CustomSecret>)
    ensures raw.MapProxy? ==> d == raw.proxy
    ensures !raw.MapDict? && !raw.MapProxy? ==> d == []
  {
    match raw
    case MapDict(entries) => ConvertEntries(entries, SecretConversion(conv))
    case MapProxy(proxy) => proxy
    case _ => []
  }

  /** The integrations list converted item by item. */
  function ConvertIntegrations<P, S, I>(items: seq<RawIntegration<I>>, conv: Converters<P, S, I>): (r: seq<Integration>)
    ensures |r| <= |items|
  {
    FilterMap(items, IntegrationConversion(conv))
  }

  /** The legacy tokens the migration walks: a dict's entries, or a read-only mapping's entries as objects. */
  function LegacyEntries<P>(raw: RawTokens<P>): (es: seq<(RawKey, TokenValue<P>)>)
    ensures raw.MapDict? ==> es == raw.entries
    ensures raw.MapProxy? ==> |es| == |raw.proxy|
    ensures !raw.MapDict? && !raw.MapProxy? ==> es == []
  {
    match raw
    case MapDict(entries) => entries
    case MapProxy(proxy) => seq(|proxy|, i requires 0 <= i < |proxy| => (KeyEnum(proxy[i].0), TokenObj(proxy[i].1)))
    case _ => []
  }

  /** The migration loop: one integration per legacy token that converts, in the mapping's order. */
  function Migrate<P, S, I>(raw: RawTokens<P>, conv: Converters<P, S, I>): (r: seq<Integration>)
    ensures |r| <= |LegacyEntries(raw)|
  {
    FilterMap(LegacyEntries(raw), MigrationConversion(conv))
  }

  /** The list under `integrations` is absent or empty (falsy). */
  predicate NoIntegrationsGiven<I>(integrations: Option<seq<RawIntegration<I>>>) {
    integrations.None? || integrations.value == []
  }

  /** The migration runs when no integrations were given and `provider_tokens` is a non-empty dict or mapping. */
  predicate MigrationRuns<P, I>(tokens: RawTokens<P>, integrations: Option<seq<RawIntegration<I>>>) {
    NoIntegrationsGiven(integrations) && LegacyEntries(tokens) != []
  }

  /** A read-only mapping, like any dict, has distinct keys. */
  ghost predicate ProxyDistinct<A, B, K, V>(raw: RawMap<A, B, K, V>) {
    raw.MapProxy? ==> DistinctKeys(raw.proxy)
  }

  /** The validator and field defaults applied to a dict. */
  function LoadDict<P, S, I>(
    tokens: RawTokens<P>,
    secrets: RawSecrets<S>,
    integrations: Option<seq<RawIntegration<I>>>,
    conv: Converters<P, S, I>): (u: UserSecrets)
    ensures ProxyDistinct(tokens) && ProxyDistinct(secrets) ==> WellFormed(u)
    ensures u.providerTokens == LoadTokens(tokens, conv) && u.customSecrets == LoadSecrets(secrets, conv)
    ensures MigrationRuns(tokens, integrations) ==> u.integrations == Migrate(tokens, conv)
    ensures !MigrationRuns(tokens, integrations) && integrations.Some? ==> u.integrations == ConvertIntegrations(integrations.value, conv)
    ensures !MigrationRuns(tokens, integrations) && integrations.None? ==> u.integrations == []
  {
    var converted := match integrations case None => [] case Some(items) => ConvertIntegrations(items, conv);
    var ints := if MigrationRuns(tokens, integrations) then Migrate(tokens, conv) else converted;
    UserSecrets(LoadTokens(tokens, conv), LoadSecrets(secrets, conv), ints)
  }

  const NotADictMessage := "UserSecrets must be initialized with a dictionary"

  /** `UserSecrets(**data)` / `model_validate(data)`: a ValueError for anything but a dict. */
  function Load<P, S, I>(raw: RawInput<P, S, I>, conv: Converters<P, S, I>): (r: Result<UserSecrets, string>)
    ensures r.Failure? <==> raw.NotADict?
    ensures r.Failure? ==> r.error == NotADictMessage
    ensures r.Success? ==> r.value == LoadDict(raw.providerTokens, raw.customSecrets, raw.integrations, conv)
  {
    match raw
    case NotADict => Failure(NotADictMessage)
    case RawDict(tokens, secrets, integrations) => Success(LoadDict(tokens, secrets, integrations, conv))
  }

  // ---------------------------------------------------------------------
  // Properties of the validator
  // ---------------------------------------------------------------------

  /**
   * A plain dict of provider tokens loads to exactly the entries that
   * convert: a provider is present iff some entry converts to it, and its
   * token is what the last such entry gave.
   */
  lemma LoadedTokensExact<P, S, I>(entries: seq<(RawKey, TokenValue<P>)>, conv: Converters<P, S, I>, p: ProviderType)
    ensures HasKey(LoadTokens(MapDict(entries), conv), p)
        <==> exists i :: 0 <= i < |entries| && Hits(TokenConversion(conv), entries[i], p)
    ensures Get(LoadTokens(MapDict(entries), conv), p) == LastHit(entries, TokenConversion(conv), p)
  {
    ConvertEntriesLastHit(entries, TokenConversion(conv), p);
    LastHitPresent(entries, TokenConversion(conv), p);
  }

  /** The same for custom secrets: exactly the entries whose value converts, under their own names. */
  lemma LoadedSecretsExact<P, S, I>(entries: seq<(string, SecretValue<S>)>, conv: Converters<P, S, I>, name: string)
    ensures HasKey(LoadSecrets(MapDict(entries), conv), name)
        <==> exists i :: 0 <= i < |entries| && entries[i].0 == name && conv.secretFromValue(entries[i].1).Some?
    ensures Get(LoadSecrets(MapDict(entries), conv), name) == LastHit(entries, SecretConversion(conv), name)
  {
    ConvertEntriesLastHit(entries, SecretConversion(conv), name);
    LastHitPresent(entries, SecretConversion(conv), name);
    assert forall i :: 0 <= i < |entries| ==>
      (Hits(SecretConversion(conv), entries[i], name) <==> entries[i].0 == name && conv.secretFromValue(entries[i].1).Some?);
  }

  /** Integration items keep their relative order: converting a concatenation concatenates the conversions. */
  lemma ConvertIntegrationsAppend<P, S, I>(a: seq<RawIntegration<I>>, b: seq<RawIntegration<I>>, conv: Converters<P, S, I>)
    ensures ConvertIntegrations(a + b, conv) == ConvertIntegrations(a, conv) + ConvertIntegrations(b, conv)
  {
    FilterMapAppend(a, b, IntegrationConversion(conv));
  }

  /** Items that already are integrations are kept as they are. */
  function AsObjects<I>(xs: seq<Integration>): (r: seq<RawIntegration<I>>)
    ensures |r| == |xs|
  {
    seq(|xs|, i requires 0 <= i < |xs| => IntegrationObj(xs[i]))
  }

  lemma ObjectsKept<P, S, I>(xs: seq<Integration>, conv: Converters<P, S, I>)
    ensures ConvertIntegrations(AsObjects<I>(xs), conv) == xs
  {
    var items := AsObjects<I>(xs);
    FilterMapTotal(items, IntegrationConversion(conv));
  }

  /** A non-empty `integrations` list switches the migration off: the result is the converted list. */
  lemma NoMigrationWhenGiven<P, S, I>(
    tokens: RawTokens<P>, secrets: RawSecrets<S>, items: seq<RawIntegration<I>>, conv: Converters<P, S, I>)
    requires items != []
    ensures LoadDict(tokens, secrets, Some(items), conv).integrations == ConvertIntegrations(items, conv)
  {
  }

  /**
   * With every legacy token migrating, a read-only mapping of provider
   * tokens yields one integration per token, in the mapping's order, and
   * the tokens themselves are retained.
   */
  lemma MigrateMapping<P, S, I>(
    proxy: Dict<ProviderType, ProviderToken>, secrets: RawSecrets<S>, integrations: Option<seq<RawIntegration<I>>>,
    conv: Converters<P, S, I>)
    requires proxy != [] && NoIntegrationsGiven(integrations)
    requires forall i :: 0 <= i < |proxy| ==> conv.integrationFromLegacy(proxy[i].0, proxy[i].1).Some?
    ensures var u := LoadDict(MapProxy(proxy), secrets, integrations, conv);
      && u.providerTokens == proxy
      && |u.integrations| == |proxy|
      && forall i :: 0 <= i < |proxy| ==> u.integrations[i] == conv.integrationFromLegacy(proxy[i].0, proxy[i].1).value
  {
    var es := LegacyEntries<P>(MapProxy(proxy));
    assert forall i :: 0 <= i < |es| ==> MigrationConversion(conv)(es[i]) == conv.integrationFromLegacy(proxy[i].0, proxy[i].1);
    FilterMapTotal(es, MigrationConversion(conv));
  }

  /**
   * The migration is idempotent: loading again with the integrations it
   * produced (now given as objects) yields the same integrations, whether
   * the migration produced some (then it is switched off and the objects
   * are kept) or none (then it runs again on the same tokens).
   */
  lemma MigrationIdempotent<P, S, I>(
    tokens: RawTokens<P>, secrets: RawSecrets<S>, integrations: Option<seq<RawIntegration<I>>>, conv: Converters<P, S, I>)
    requires NoIntegrationsGiven(integrations)
    ensures var u := LoadDict(tokens, secrets, integrations, conv);
      LoadDict(tokens, secrets, Some(AsObjects<I>(u.integrations)), conv).integrations == u.integrations
  {
    var u := LoadDict(tokens, secrets, integrations, conv);
    ObjectsKept(u.integrations, conv);
  }

  /**
   * Reloading a loaded aggregate whose fields are passed back as read-only
   * mappings and objects gives it back unchanged, provided it holds at
   * least one integration (an empty list would let the migration run).
   */
  lemma ReloadFixedPoint<P, S, I>(u: UserSecrets, conv: Converters<P, S, I>)
    requires u.integrations != [] && WellFormed(u)
    ensures LoadDict(MapProxy(u.providerTokens), MapProxy(u.customSecrets), Some(AsObjects<I>(u.integrations)), conv) == u
  {
    ObjectsKept(u.integrations, conv);
  }

  // ---------------------------------------------------------------------
  // The field serialisers
  // ---------------------------------------------------------------------

  /** `pydantic_encoder` on a SecretStr: its masked text, ten stars, or nothing for an empty secret. */
  function Mask(secret: string): (m: string)
    ensures m == "" <==> secret == ""
    ensures forall i :: 0 <= i < |m| ==> m[i] == '*'
  {
    if secret == "" then "" else "**********"
  }

  /** The text a serialiser emits for a secret: plaintext only under `expose_secrets`. */
  function Emit(secret: string, expose: bool): string {
    if expose then secret else Mask(secret)
  }

  datatype TokenRecord = TokenRecord(token: string, host: Option<string>, userId: Option<string>)

  datatype SecretRecord = SecretRecord(secret: string, description: string)

  datatype IntegrationRecord = IntegrationRecord(
    id: string,
    providerType: string,
    name: string,
    host: Option<string>,
    userId: Option<string>,
    token: Option<string>)

  /** One provider token in the serialiser's loop: skipped without a token, else keyed by the provider's value. */
  function TokenSerialization(expose: bool): ((ProviderType, ProviderToken)) -> Option<(string, TokenRecord)> {
    (e: (ProviderType, ProviderToken)) =>
      if !IsSet(e.1.token) then None
      else Some((e.0.Value(), TokenRecord(Emit(e.1.token.value, expose), e.1.host, e.1.userId)))
  }

  function SerializeProviderTokens(tokens: Dict<ProviderType, ProviderToken>, expose: bool): (out: Dict<string, TokenRecord>)
    ensures |out| <= |tokens|
  {
    ConvertEntries(tokens, TokenSerialization(expose))
  }

  /**
   * The provider-token serialiser emits, under each provider's string
   * value, exactly the providers that hold a token; the token is plaintext
   * under `expose_secrets` and ten stars otherwise. Nothing else is keyed.
   */
  lemma SerializedProviderTokens(tokens: Dict<ProviderType, ProviderToken>, expose: bool, p: ProviderType)
    requires DistinctKeys(tokens)
    ensures var out := SerializeProviderTokens(tokens, expose);
      Get(out, p.Value()) ==
        match Get(tokens, p)
        case Some(t) =>
          if IsSet(t.token) then Some(TokenRecord(if expose then t.token.value else "**********", t.host, t.userId))
          else None
        case None => None
  {
    var f := TokenSerialization(expose);
    ConvertEntriesLastHit(tokens, f, p.Value());
    OnlyOwnEntryHits(tokens, expose, p);
    if HasKey(tokens, p) {
      var i := IndexOfKey(tokens, p);
      if IsSet(tokens[i].1.token) {
        LastHitSingle(tokens, f, p.Value(), i);
      } else {
        LastHitPresent(tokens, f, p.Value());
      }
    } else {
      LastHitPresent(tokens, f, p.Value());
    }
  }

  /** Only the entry of provider p can serialise under p's string value. */
  lemma OnlyOwnEntryHits(tokens: Dict<ProviderType, ProviderToken>, expose: bool, p: ProviderType)
    ensures forall j :: 0 <= j < |tokens| && tokens[j].0 != p ==> !Hits(TokenSerialization(expose), tokens[j], p.Value())
  {
    forall j | 0 <= j < |tokens| && tokens[j].0 != p
      ensures !Hits(TokenSerialization(expose), tokens[j], p.Value())
    {
      ValueInjective(tokens[j].0, p);
    }
  }

  /** A key of the serialised tokens that is no provider's value is never emitted. */
  lemma SerializedKeysAreProviders(tokens: Dict<ProviderType, ProviderToken>, expose: bool, k: string)
    requires ParseProviderType(k).None?
    ensures !HasKey(SerializeProviderTokens(tokens, expose), k)
  {
    var f := TokenSerialization(expose);
    ConvertEntriesLastHit(tokens, f, k);
    forall j | 0 <= j < |tokens|
      ensures !Hits(f, tokens[j], k)
    {
      ParseValue(tokens[j].0);
    }
    LastHitPresent(tokens, f, k);
  }

  function SecretSerialization(expose: bool): ((string, CustomSecret)) -> Option<(string, SecretRecord)> {
    (e: (string, CustomSecret)) => Some((e.0, SecretRecord(Emit(e.1.secret, expose), e.1.description)))
  }

  function SerializeCustomSecrets(secrets: Dict<string, CustomSecret>, expose: bool): Dict<string, SecretRecord> {
    ConvertEntries(secrets, SecretSerialization(expose))
  }

  /** Every custom secret is emitted under its name with its description; its value is plaintext only when exposed. */
  lemma SerializedCustomSecrets(secrets: Dict<string, CustomSecret>, expose: bool, name: string)
    requires DistinctKeys(secrets)
    ensures Get(SerializeCustomSecrets(secrets, expose), name) ==
      match Get(secrets, name)
      case Some(c) => Some(SecretRecord(if expose then c.secret else Mask(c.secret), c.description))
      case None => None
  {
    ConvertKeyPreserving(secrets, SecretSerialization(expose), name);
  }

  /** The integrations serialiser: one record per integration, in order, token None when unset. */
  function SerializeIntegrations(integrations: seq<Integration>, expose: bool): (out: seq<IntegrationRecord>)
    ensures |out| == |integrations|
    ensures forall i :: 0 <= i < |out| ==>
      && out[i].id == integrations[i].id
      && out[i].providerType == integrations[i].providerType
      && out[i].name == integrations[i].name
      && out[i].host == integrations[i].host
      && out[i].userId == integrations[i].userId
      && (out[i].token.Some? <==> IsSet(integrations[i].token))
      && (out[i].token.Some? && !expose ==> out[i].token.value == "**********")
      && (out[i].token.Some? && expose ==> out[i].token == integrations[i].token)
  {
    seq(|integrations|, i requires 0 <= i < |integrations| =>
      var x := integrations[i];
      IntegrationRecord(x.id, x.providerType, x.name, x.host, x.userId,
        if IsSet(x.token) then Some(Emit(x.token.value, expose)) else None))
  }

  // ---------------------------------------------------------------------
  // Projections
  // ---------------------------------------------------------------------

  /** `get_env_vars`: the exposed dump's custom secrets, each name mapped to its secret. */
  function GetEnvVars(u: UserSecrets): Dict<string, string> {
    ConvertEntries(SerializeCustomSecrets(u.customSecrets, true), SecretField())
  }

  function SecretField(): ((string, SecretRecord)) -> Option<(string, string)> {
    (e: (string, SecretRecord)) => Some((e.0, e.1.secret))
  }

  /** The environment holds exactly the custom-secret names, each with its plaintext value, and nothing else. */
  lemma EnvVarsExact(u: UserSecrets, name: string)
    requires WellFormed(u)
    ensures Get(GetEnvVars(u), name) ==
      match Get(u.customSecrets, name) case Some(c) => Some(c.secret) case None => None
  {
    var dumped := SerializeCustomSecrets(u.customSecrets, true);
    SerializedCustomSecrets(u.customSecrets, true, name);
    ConvertKeyPreserving(dumped, SecretField(), name);
  }

  /** `get_custom_secrets_descriptions`: each custom-secret name mapped to its description. */
  function GetCustomSecretsDescriptions(u: UserSecrets): Dict<string, string> {
    ConvertEntries(u.customSecrets, DescriptionField())
  }

  function DescriptionField(): ((string, CustomSecret)) -> Option<(string, string)> {
    (e: (string, CustomSecret)) => Some((e.0, e.1.description))
  }

  lemma DescriptionsExact(u: UserSecrets, name: string)
    requires WellFormed(u)
    ensures Get(GetCustomSecretsDescriptions(u), name) ==
      match Get(u.customSecrets, name) case Some(c) => Some(c.description) case None => None
  {
    ConvertKeyPreserving(u.customSecrets, DescriptionField(), name);
  }
}
