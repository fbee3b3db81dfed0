# OpenHands user secrets, secrets routes, Gitea-family adapters and proxy-header auth, in Dafny

This project models four parts of OpenHands and proves properties of them.

- **The per-user credential aggregate** (`UserSecrets`, module `UserSecretsModel`). It has three parts:
  - the legacy provider tokens;
  - the custom secrets;
  - the ordered list of integrations.

  Loading it rejects anything that is not a dict and drops entries that fail to convert. When no integrations are given, it migrates the legacy provider tokens into integrations. The field serialisers mask secrets unless secrets are to be exposed. Two projections derive the environment variables and the secret descriptions.
- **The `/secrets` route handlers** (module `SecretsRoutes`). Each handler is a transition from the loaded secrets and the request to a response and to what is stored, if anything. This covers:
  - provider-token validation, storing and unsetting;
  - the run-once move of legacy tokens out of the settings;
  - custom-secret listing, creation, update and deletion;
  - the integration listing and integration add, update and delete.
- **The Gitea-family adapters.** Module `GiteaBase` holds the shared base class. Modules `Gitea` and `Forgejo` hold the Gitea and Forgejo services. They cover:
  - base-URL derivation;
  - request headers and the token rules;
  - the HTTP error taxonomy and the single retry on 401;
  - query parameters with the page-size cap of 100;
  - repository and branch record conversion;
  - the suggested-task scan;
  - client-side branch pagination and search;
  - the microagent-file filters, `owner/repo` validation and the PR-state check.
- **Identity from proxy headers.** Module `Authelia` covers Authelia single sign-on, with its Bearer-JWT fallback. Module `ForwardAuth` covers forward authentication. Module `UserAuthStores` holds the per-request memo of the user's stores that both classes share.

Shared support:

- `Wrappers`: Option and Result.
- `Dicts`: Python's insertion-ordered dict as a sequence of pairs, with a last-wins dict-building loop and a skip-failures list-building loop.
- `Strs`: `startswith`, `in`, ASCII `lower`, `split` and Python slicing.
- `ServiceTypes`: provider types, repository and branch records, the adapter errors, HTTP replies, and "convert every item or fail at the first failure".
- `Storage`: store handles and settings.

The model makes these modelling choices:

- **What becomes a parameter.**
  - Everything the code reaches through the network or storage: provider-token validation, HTTP replies, `load`, and a store's `get_instance`.
  - The converters defined outside the modelled files: `ProviderToken.from_value`, `CustomSecret.from_value`, `Integration.from_dict` and `Integration.from_legacy_provider_token`. These are partial functions, where None stands for the ValueError they raise.
- **Classes.**
  - Objects that the code updates in place are classes with `modifies` frames. These are the adapters' `token`, and the memo fields of the auth classes.
  - Loops that rebuild lists and dicts are methods proved against a specification function.
- **Code followed over the description.**
  - `add_integration` stores the id it is given; it does not generate one.
  - Forgejo's default domain is applied before the base class derives the URL, so a Forgejo adapter with no domain talks to Codeberg.

## Model

| member | source | states |
|---|---|---|
| UserSecretsModel.Load | openhands/storage/data_models/user_secrets.py:135-136 | input that is not a dict fails with "UserSecrets must be initialized with a dictionary", and nothing is built; a dict gives the normalised aggregate |
| UserSecretsModel.LoadDict | openhands/storage/data_models/user_secrets.py:138-221 | tokens and secrets are converted; integrations are converted when given; the migration runs exactly when integrations are absent or empty and the legacy tokens form a non-empty mapping; distinct proxies give a well-formed aggregate |
| UserSecretsModel.ParseKey | openhands/storage/data_models/user_secrets.py:145-150 | an enum key is taken as is; a string key parses only to the provider whose value it is |
| UserSecretsModel.LoadTokens | openhands/storage/data_models/user_secrets.py:140-161 | a read-only mapping is kept as is; anything that is neither a dict nor a mapping gives no tokens |
| UserSecretsModel.LoadSecrets | openhands/storage/data_models/user_secrets.py:163-175 | as LoadTokens, for custom secrets |
| UserSecretsModel.LoadedTokensExact | openhands/storage/data_models/user_secrets.py:145-161 | the loaded tokens hold a provider iff some entry converts to it, and its value is the last converted one |
| UserSecretsModel.LoadedSecretsExact | openhands/storage/data_models/user_secrets.py:163-175 | the loaded secrets hold a name iff some entry converts to it, with the last converted value |
| UserSecretsModel.ConvertIntegrations | openhands/storage/data_models/user_secrets.py:177-196 | the converted list is never longer than the input |
| UserSecretsModel.ConvertIntegrationsAppend | openhands/storage/data_models/user_secrets.py:180-194 | conversion works item by item, so surviving items keep their input order |
| UserSecretsModel.ObjectsKept | openhands/storage/data_models/user_secrets.py:183-185 | items that already are Integration objects come through unchanged |
| UserSecretsModel.AsObjects | openhands/storage/data_models/user_secrets.py:183-185 | integrations passed back as objects, one per integration |
| UserSecretsModel.LegacyEntries | openhands/storage/data_models/user_secrets.py:200-203 | the legacy entries the migration walks: a dict's entries, or one entry per item of a mapping |
| UserSecretsModel.Migrate | openhands/storage/data_models/user_secrets.py:198-221 | the migration yields at most one integration per legacy entry |
| UserSecretsModel.NoMigrationWhenGiven | openhands/storage/data_models/user_secrets.py:199 | a non-empty integrations list switches the migration off; the integrations are the converted list |
| UserSecretsModel.MigrateMapping | openhands/storage/data_models/user_secrets.py:199-221 | with no integrations given and a non-empty mapping of convertible tokens, the integrations are one migrated entry per token, in map order, and the provider tokens are kept |
| UserSecretsModel.MigrationIdempotent | openhands/storage/data_models/user_secrets.py:199-221 | loading again with the migrated integrations leaves them unchanged |
| UserSecretsModel.ReloadFixedPoint | openhands/storage/data_models/user_secrets.py:138-221 | reloading a well-formed aggregate that has integrations gives it back unchanged |
| UserSecretsModel.Mask | openhands/storage/data_models/user_secrets.py:66-70 | the masked form is empty iff the secret is empty, and otherwise shows only `*` |
| UserSecretsModel.SerializeProviderTokens | openhands/storage/data_models/user_secrets.py:49-80 | the dump never has more entries than there are tokens |
| UserSecretsModel.SerializedProviderTokens | openhands/storage/data_models/user_secrets.py:56-78 | a provider appears under its string value iff it has a set token, with the plaintext token only when exposing secrets (otherwise masked), and with its host and user id |
| UserSecretsModel.OnlyOwnEntryHits | openhands/storage/data_models/user_secrets.py:56-78 | no entry of another provider is emitted under a provider's string value, since provider values are distinct |
| UserSecretsModel.SerializedKeysAreProviders | openhands/storage/data_models/user_secrets.py:60-61 | every key of the dump is some provider's value |
| UserSecretsModel.SerializedCustomSecrets | openhands/storage/data_models/user_secrets.py:82-98 | each custom secret is dumped under its name, with the plaintext only when exposing secrets, and with its description |
| UserSecretsModel.SerializeIntegrations | openhands/storage/data_models/user_secrets.py:100-127 | one record per integration, in order, with every field copied; the token is None when unset, the plaintext when exposing, the mask otherwise |
| UserSecretsModel.EnvVarsExact | openhands/storage/data_models/user_secrets.py:233-240 | the environment maps exactly the custom-secret names to their plaintext values; no provider or integration token appears |
| UserSecretsModel.DescriptionsExact | openhands/storage/data_models/user_secrets.py:242-247 | the descriptions map exactly the custom-secret names to their descriptions |
| SecretsRoutes.InvalidateLegacySecretsStore | openhands/server/routes/secrets.py:34-55 | the move happens iff the settings still hold legacy tokens; the secrets it stores carry those tokens with the integrations migrated from them; the settings are stored with an emptied secrets store |
| SecretsRoutes.InvalidateRunsOnce | openhands/server/routes/secrets.py:39-55 | running the move on the settings it stored does nothing: it migrates only once |
| SecretsRoutes.ProcessTokenValidationResult | openhands/server/routes/secrets.py:58-66 | the message is empty iff the confirmed type is the claimed one; otherwise it names the claimed provider |
| SecretsRoutes.CheckProviderTokens | openhands/server/routes/secrets.py:69-101 | the validation loop ends with the message of the prefix fold over the incoming tokens |
| SecretsRoutes.CheckMessageNamesProvider | openhands/server/routes/secrets.py:73-101 | a non-empty message is the invalid-token message of some incoming provider |
| SecretsRoutes.CheckStepOutcome | openhands/server/routes/secrets.py:73-101 | one iteration leaves the message as it was, clears it, or sets the invalid-token message of its own provider |
| SecretsRoutes.LaterValidTokenResets | openhands/server/routes/secrets.py:81 | a valid last token resets the message to empty, whatever came before |
| SecretsRoutes.LastInvalidTokenReported | openhands/server/routes/secrets.py:73-96 | an invalid last token is the one reported |
| SecretsRoutes.Merged | openhands/server/routes/secrets.py:130-138 | a merged entry takes the incoming host; it keeps the stored token and user id when the request omits the token and a stored token is set; otherwise it is the incoming entry |
| SecretsRoutes.MergeEntry | openhands/server/routes/secrets.py:130-138 | one loop iteration replaces entry i, in place, by its merge with the stored token, and keeps the keys distinct |
| SecretsRoutes.StoreProviderTokens | openhands/server/routes/secrets.py:104-154 | a failed check answers 401 and stores nothing; otherwise the stored tokens have exactly the incoming keys and order, take the host from the request, and keep the stored token and user id only where the request's token is empty and a stored one is set; custom secrets and integrations are untouched |
| SecretsRoutes.UnsetProviderTokens | openhands/server/routes/secrets.py:157-177 | stores only when something was loaded, and then with no provider tokens and everything else unchanged |
| SecretsRoutes.LoadCustomSecretsNames | openhands/server/routes/secrets.py:185-210 | the listing is exactly the name-to-description projection, and empty when nothing was loaded |
| SecretsRoutes.AsSecretObjects | openhands/server/routes/secrets.py:234-237 | the custom secrets passed back as objects, one per entry |
| SecretsRoutes.SecretObjectsReload | openhands/server/routes/secrets.py:240-245 | passing custom secrets back as objects reloads them unchanged |
| SecretsRoutes.Rebuild | openhands/server/routes/secrets.py:240-245 | the rebuilt aggregate's integrations are those migrated from the tokens, and its tokens are the loaded tokens |
| SecretsRoutes.CreateCustomSecret | openhands/server/routes/secrets.py:213-258 | an existing name answers 400 "Secret X already exists" and stores nothing; otherwise 201, and the stored aggregate is rebuilt with the new secret added |
| SecretsRoutes.CreateAppendsSecret | openhands/server/routes/secrets.py:228-245 | after creation, the new name holds the value and description (empty by default) and every other secret is unchanged |
| SecretsRoutes.UpdateCustomSecret | openhands/server/routes/secrets.py:261-310 | an unknown id answers 404; a rename onto another existing name answers 400; otherwise the secret's value moves to the new name with the new description, empty by default |
| SecretsRoutes.UpdateMovesSecret | openhands/server/routes/secrets.py:280-297 | after an update, the new name holds the old value and the new description, and any other name keeps its secret |
| SecretsRoutes.RebuildKeepsSecrets | openhands/server/routes/secrets.py:240-245 | the rebuilt aggregate holds exactly the custom secrets it was given |
| SecretsRoutes.DeleteCustomSecret | openhands/server/routes/secrets.py:313-351 | an unknown id answers 404 and stores nothing; otherwise the secret is removed and the aggregate is rebuilt |
| SecretsRoutes.DeleteRemovesSecret | openhands/server/routes/secrets.py:322-338 | after deletion, the name is gone and every other secret is unchanged |
| SecretsRoutes.CreateDropsIntegrations | openhands/server/routes/secrets.py:240-245 | as written, creating a secret for a user whose integration was added by hand stores an aggregate without that integration |
| SecretsRoutes.CreateCustomSecretIntended | openhands/server/routes/secrets.py:213-245 | the intended creation: same responses, and the stored aggregate keeps the tokens and integrations, adds the secret, and stays well-formed |
| SecretsRoutes.GetIntegrations | openhands/server/routes/secrets.py:359-388 | the listing has one entry per integration, in order, with every field but the token, and `has_token` true iff a non-empty token is present |
| SecretsRoutes.ValidateIntegrationToken | openhands/server/routes/secrets.py:391-403 | the message is empty iff the provider type parses and the validator confirms that type; otherwise it names the type |
| SecretsRoutes.UnknownProviderTypeRejects | openhands/server/routes/secrets.py:391-403 | an unknown provider type with a token is always rejected |
| SecretsRoutes.AddIntegration | openhands/server/routes/secrets.py:406-467 | a rejected token answers 401; a held id answers 400; both store nothing; otherwise 201, with the new integration appended and every earlier entry unchanged; distinct ids stay distinct |
| SecretsRoutes.CheckRequestToken | openhands/server/routes/secrets.py:414-424 | a request token that is set and fails validation gives the 401 answer with the validation message; otherwise there is no rejection |
| SecretsRoutes.ScanCollisionIntended | openhands/server/routes/secrets.py:432-437 | the scan reports a collision iff some existing entry holds the id |
| SecretsRoutes.UpdatedEntry | openhands/server/routes/secrets.py:503-515 | the rewritten entry takes the request's id, provider type, name, host and user id, and keeps the stored token when the request's token is empty |
| SecretsRoutes.Replaced | openhands/server/routes/secrets.py:499-518 | rewriting in place keeps the list's length |
| SecretsRoutes.ReplaceMatching | openhands/server/routes/secrets.py:499-518 | the loop yields the in-place rewrite, and `found` holds iff some entry has the id |
| SecretsRoutes.ScanCollisionAsWritten | openhands/server/routes/secrets.py:527-533 | the scan fires iff some entry holds the new id and differs from the list's last entry |
| SecretsRoutes.UpdateIntegration | openhands/server/routes/secrets.py:470-550 | as written: 401 on a rejected token; 404 when nothing is loaded or no entry matches; 400 when the rename trips the collision check against the list's last entry; otherwise 200 with the rewritten list stored |
| SecretsRoutes.RenameOfNonLastRejected | openhands/server/routes/secrets.py:527-533 | as written, renaming any entry but the last to an unused id is refused |
| SecretsRoutes.RenameOntoHeldIdRejected | openhands/server/routes/secrets.py:527-533 | as written, a rename onto an id another entry holds is refused, unless the rewritten entry equals that entry |
| SecretsRoutes.UpdateIntegrationCounterexample | openhands/server/routes/secrets.py:527-533 | with entries `a` and `b`, renaming `a` to the unused `c` trips the check as written, though nothing holds `c` |
| SecretsRoutes.ReplacedKeepsIdsUnique | openhands/server/routes/secrets.py:499-533 | with distinct ids, a rewrite to an id no other entry holds keeps ids distinct |
| SecretsRoutes.UpdateIntegrationIntended | openhands/server/routes/secrets.py:470-550 | the intended update: same responses, except that 400 is given iff another entry already holds the new id; distinct ids stay distinct |
| SecretsRoutes.WithoutIdExact | openhands/server/routes/secrets.py:568-577 | after filtering, an integration remains iff it was there and has a different id |
| SecretsRoutes.WithoutAbsentId | openhands/server/routes/secrets.py:579-583 | filtering an absent id changes nothing |
| SecretsRoutes.DeleteIntegration | openhands/server/routes/secrets.py:553-600 | 404 and nothing stored when nothing was loaded or no entry has the id; otherwise 200, with every entry that has the id removed and the others kept in order |
| SecretsRoutes.DropMatching | openhands/server/routes/secrets.py:569-577 | the loop keeps exactly the entries with another id, in order, and `found` holds iff some entry has the id |
| ServiceTypes.ConvertAll | openhands/integrations/gitea/base_service.py:335-342 | succeeds iff every item converts, with the items converted pointwise; otherwise fails with the first failure's error |
| GiteaBase.BaseUrlFor | openhands/integrations/gitea/base_service.py:34-61 | a domain with a scheme gets `/api/v1` appended; another non-empty domain also gets `https://`; no domain gives `https://gitea.com/api/v1` |
| GiteaBase.BaseUrlShape | openhands/integrations/gitea/base_service.py:54-61 | every base URL has an http or https scheme and ends in `/api/v1` |
| GiteaBase.BaseUrlKeepsDomain | openhands/integrations/gitea/base_service.py:59-61 | a domain without a scheme is recovered from the URL |
| GiteaBase.HeadersForAuthorization | openhands/integrations/gitea/base_service.py:73-83 | the fixed headers are always there; `Authorization` is `token <t>` and is present iff the token is non-empty |
| GiteaBase.MapReply | openhands/integrations/gitea/base_service.py:150-157 | 2xx gives the body; 401 gives AuthenticationError; 404 gives ResourceNotFoundError; any other status gives UnknownException with the status; a transport failure gives UnknownException |
| GiteaBase.AuthenticationErrorIffExpired | openhands/integrations/gitea/base_service.py:150-157 | a reply maps to AuthenticationError iff its status is the one `_has_token_expired` accepts, 401 |
| GiteaBase.MicroagentFileNamed | openhands/integrations/gitea/base_service.py:105-111 | a microagent file has a name ending in `.md` that does not start with `.` |
| GiteaBase.FilePathFromItem | openhands/integrations/gitea/base_service.py:117-119 | the item's path, or empty when it has none |
| GiteaBase.PageSizeClamped | openhands/integrations/gitea/base_service.py:188-238 | the requested page size is min(per_page, 100): per_page up to 100, exactly 100 above it; `is_private=False` is sent iff `public`; listing all repositories asks for 100 |
| GiteaBase.ConvertToRepository | openhands/integrations/gitea/base_service.py:392-405 | a missing `id` or `full_name` is a KeyError; otherwise the fields are copied and the defaults are applied |
| GiteaBase.RepositoriesFromListing | openhands/integrations/gitea/base_service.py:212-224 | the listing converts iff every record has an id and full name, record by record |
| GiteaBase.RepositoriesFromSearch | openhands/integrations/gitea/base_service.py:197-203 | search results are the `data` records converted; a body without `data` gives none |
| GiteaBase.TasksForAppend | openhands/integrations/gitea/base_service.py:262-312 | the repositories are scanned independently: the tasks of a concatenation are the concatenation of tasks |
| GiteaBase.TasksOrigin | openhands/integrations/gitea/base_service.py:274-308 | every task belongs to a scanned repository, names the provider, and has a non-zero number and a non-empty title |
| GiteaBase.RepoTasksOrigin | openhands/integrations/gitea/base_service.py:274-308 | a task of one repository carries that repository's name, the provider, a non-zero number and a non-empty title |
| GiteaBase.TasksForStep | openhands/integrations/gitea/base_service.py:260-312 | scanning one more repository appends exactly that repository's tasks |
| GiteaBase.FirstRepos | openhands/integrations/gitea/base_service.py:260 | only the first 10 repositories are scanned, as a prefix |
| GiteaBase.ConvertBranch | openhands/integrations/gitea/base_service.py:335-341 | a missing name is a KeyError; otherwise the name, protection, commit id and commit timestamp are copied |
| GiteaBase.PaginateBranches | openhands/integrations/gitea/base_service.py:344-362 | the page reports the total, the page number and the page size it was asked for |
| GiteaBase.PaginateBranchesSlice | openhands/integrations/gitea/base_service.py:351-362 | for page >= 1 and per_page >= 1, the page is the slice `[(page-1)*per_page, page*per_page)` clamped to the list, with at most per_page items, and there is a next page iff page*per_page < total |
| GiteaBase.PaginateBranchesExample | openhands/integrations/gitea/base_service.py:351-362 | 45 branches, page 2, 20 per page: items 20 to 39, and there is a next page |
| GiteaBase.SearchBranchesExact | openhands/integrations/gitea/base_service.py:364-377 | the result is a prefix, of at most per_page items, of the branches whose lower-cased name contains the lower-cased query, in their original order; all of them when there are no more than per_page |
| GiteaBase.IsPrOpen | openhands/integrations/gitea/base_service.py:421-436 | a failed lookup counts as open; otherwise the PR is open iff its state is `open` |
| GiteaBase.BaseGiteaService.constructor | openhands/integrations/gitea/base_service.py:39-64 | an empty or missing token leaves the empty default; the base URL follows BaseUrlFor; the other arguments are kept |
| GiteaBase.BaseGiteaService.GetLatestToken | openhands/integrations/gitea/base_service.py:88-89 | the adapter's own token |
| GiteaBase.BaseGiteaService.GetGiteaHeaders | openhands/integrations/gitea/base_service.py:66-83 | an adapter without a token adopts a non-empty latest token; the headers are those for the resulting token |
| GiteaBase.BaseGiteaService.MakeRequest | openhands/integrations/gitea/base_service.py:121-157 | sends the headers for the token and returns the mapped reply |
| GiteaBase.BaseGiteaService.GetSuggestedTasks | openhands/integrations/gitea/base_service.py:253-314 | a failed repository listing is passed on; otherwise the tasks of the first 10 repositories, issues before PRs within a repository, where a repository whose fetch fails contributes only what came before the failure |
| GiteaBase.BaseGiteaService.CollectRepoTasks | openhands/integrations/gitea/base_service.py:261-312 | one repository appends its issue tasks and then its pull-request tasks; a failed listing ends the repository with what it had |
| GiteaBase.BaseGiteaService.CollectTasks | openhands/integrations/gitea/base_service.py:274-284 | appends one task per item with a truthy number and title, in order |
| GiteaBase.BaseGiteaService.GetBranches | openhands/integrations/gitea/base_service.py:324-342 | converts every listed branch, or fails with the first failure |
| GiteaBase.ConvertAllFirstFailure | openhands/integrations/gitea/base_service.py:335-342 | the first failing item decides the error |
| GiteaBase.ConvertAllSuccess | openhands/integrations/gitea/base_service.py:335-342 | when every item converts, the result is the converted list |
| Gitea.GiteaBaseUrl | openhands/integrations/gitea/gitea_service.py:37-58 | `https://d/api/v1` for a non-empty d other than `gitea.com`, else the gitea.com default |
| Gitea.GiteaBaseUrlAgreesOnHost | openhands/integrations/gitea/gitea_service.py:57-58 | for a domain without a scheme, gitea.com included, the URL is the one the shared rule gives |
| Gitea.GiteaBaseUrlDoublesScheme | openhands/integrations/gitea/gitea_service.py:57-58 | for an `http://` domain it prefixes a second scheme where the shared rule keeps the domain as given |
| Gitea.Settle | openhands/integrations/gitea/gitea_service.py:222-232 | 2xx gives the body; any other status or a transport failure is an error carrying what happened |
| Gitea.SplitRepoName | openhands/integrations/gitea/gitea_service.py:118-121 | a name without `/` is a ValueError with the documented message; otherwise it splits at the first `/`, and owner + `/` + repo gives the name back |
| Gitea.SplitRepoNameJoin | openhands/integrations/gitea/gitea_service.py:118-121 | splitting `owner/repo` with a slash-free owner gives owner and repo back |
| Gitea.IsValidMicroagentFile | openhands/integrations/gitea/gitea_service.py:170-176 | a missing `type` or, for files, a missing `name` is a KeyError; it holds iff the type is `file` and the name ends in `.md` and is not `README.md` |
| Gitea.MicroagentFiltersDiffer | openhands/integrations/gitea/gitea_service.py:170-176 | `.hidden.md` passes the Gitea filter but not the shared one; `README.md` passes the shared one but not the Gitea filter |
| Gitea.FilePathFromItem | openhands/integrations/gitea/gitea_service.py:182-184 | the path is the microagents path, `/` and the name; a missing name is an error |
| Gitea.ConvertGiteaBranch | openhands/integrations/gitea/gitea_service.py:143-150 | converts iff the name is there, copying protection and the commit id, with no push date |
| Gitea.GiteaService.constructor | openhands/integrations/gitea/gitea_service.py:39-61 | the token as given (empty when unset), the base URL by GiteaBaseUrl, refresh off, and the other arguments kept |
| Gitea.GiteaService.ChosenToken | openhands/integrations/gitea/gitea_service.py:69-77 | with the external token manager, the external token, and a missing one is a ValueError; otherwise the adapter's token |
| Gitea.GiteaService.GiteaHeaders | openhands/integrations/gitea/gitea_service.py:67-84 | an empty chosen token is the ValueError "Gitea token is required"; otherwise three headers with `Authorization: token <t>` |
| Gitea.GiteaService.MakeRequest | openhands/integrations/gitea/gitea_service.py:190-232 | at most two requests; none when the headers fail; a second exactly when refresh is set and the first answer is 401; the answer is that of the last request |
| Gitea.GiteaService.RepositoryUrl | openhands/integrations/gitea/gitea_service.py:118-122 | a repository name without `/` is refused; otherwise the URL is the base URL, `/repos/` and the name |
| Gitea.GiteaService.GetBranches | openhands/integrations/gitea/gitea_service.py:135-152 | a repository name without `/` is a ValueError; otherwise every listed branch is converted |
| Gitea.GiteaService.GetInstallations | openhands/integrations/gitea/gitea_service.py:154-158 | always the empty list |
| Forgejo.ForgejoBaseDomain | openhands/integrations/forgejo/forgejo_service.py:23-24 | a missing or empty domain becomes `codeberg.org`; any other domain is kept |
| Forgejo.ForgejoBaseUrl | openhands/integrations/forgejo/forgejo_service.py:23-33 | no domain gives `https://codeberg.org/api/v1`, never the gitea.com default; a given domain yields exactly the shared rule's URL |
| Forgejo.NewForgejoService | openhands/integrations/forgejo/forgejo_service.py:13-37 | every argument is forwarded unchanged except the defaulted domain; the provider is Forgejo |
| UserAuthStores.StoreCache.GetUserSettingsStore | openhands/server/user_auth/authelia_user_auth.py:110-122 | a kept store is returned without a lookup; otherwise the looked-up store is kept; a missing instance is a ValueError and keeps nothing |
| UserAuthStores.StoreCache.GetSecretsStore | openhands/server/user_auth/authelia_user_auth.py:139-151 | as GetUserSettingsStore, for the secrets store |
| UserAuthStores.StoreCache.GetUserSettings | openhands/server/user_auth/authelia_user_auth.py:124-137 | kept settings are reused; otherwise the loaded settings, merged with the config when present, are kept and returned |
| UserAuthStores.StoreCache.GetUserSecrets | openhands/server/user_auth/authelia_user_auth.py:153-161 | kept secrets are reused only when there are some; otherwise the load is kept and returned |
| UserAuthStores.StoreCache.GetProviderTokens | openhands/server/user_auth/authelia_user_auth.py:163-168 | the provider tokens of the user's secrets, or None when there are none |
| Authelia.BearerToken | openhands/server/user_auth/authelia_user_auth.py:51-53 | present iff the Authorization header starts with `Bearer `; it is the text after the first space |
| Authelia.PadLength | openhands/server/user_auth/authelia_user_auth.py:61 | between 1 and 4, making the padded length a multiple of 4; 4 for an already aligned payload |
| Authelia.Padded | openhands/server/user_auth/authelia_user_auth.py:61 | the payload followed by 1 to 4 `=`, to a length that is a multiple of 4 |
| Authelia.JwtClaims | openhands/server/user_auth/authelia_user_auth.py:57-65 | claims exist only for a Bearer token of at least two dot-separated parts, and are the decoded padded second part; a decode failure gives None |
| Authelia.UserClaim | openhands/server/user_auth/authelia_user_auth.py:63 | `sub`, else `preferred_username`, else whatever `email` gives |
| Authelia.GetUserId | openhands/server/user_auth/authelia_user_auth.py:38-67 | non-empty Remote-User, then X-Remote-User, then the JWT user claim, else None |
| Authelia.GetUserEmail | openhands/server/user_auth/authelia_user_auth.py:69-93 | non-empty Remote-Email, then X-Remote-Email, then the JWT `email` claim, else None |
| Authelia.GetAccessToken | openhands/server/user_auth/authelia_user_auth.py:95-108 | the Bearer token, else a non-empty X-Access-Token, else None |
| Authelia.GetAuthType | openhands/server/user_auth/authelia_user_auth.py:170-178 | BEARER iff Authorization starts with `Bearer `, else COOKIE |
| Authelia.AuthTypeDecidesToken | openhands/server/user_auth/authelia_user_auth.py:170-178 | a BEARER request's token is the header text after `Bearer `; a COOKIE request's token is its X-Access-Token |
| Authelia.UserIdSource | openhands/server/user_auth/authelia_user_auth.py:38-67 | a non-empty user id comes from a user header or from the JWT's `sub`, `preferred_username` or `email` |
| Authelia.UserIdFallsBackToEmail | openhands/server/user_auth/authelia_user_auth.py:63-89 | with no user or email headers and no user-name claims, the user id is the email |
| Authelia.NoHeadersNoIdentity | openhands/server/user_auth/authelia_user_auth.py:38-108 | no headers: no user, no email, no token, cookie authentication |
| Authelia.IdentityHeaderExamples | openhands/server/user_auth/authelia_user_auth.py:41-77 | `Remote-User: testuser` gives user `testuser`; `X-Remote-User: testuser2` gives `testuser2`; `Remote-Email` gives the email |
| Authelia.BearerHeaderGivesToken | openhands/server/user_auth/authelia_user_auth.py:98-101 | `Authorization: Bearer <t>` gives the access token t and bearer authentication |
| Authelia.AccessTokenHeaderGivesToken | openhands/server/user_auth/authelia_user_auth.py:104-106 | a lone non-empty X-Access-Token is the access token, with cookie authentication |
| Authelia.AutheliaUserAuth.constructor | openhands/server/user_auth/authelia_user_auth.py:180-184 | a fresh instance with nothing memoised, whose stores are looked up under the user id from the headers |
| ForwardAuth.FirstHeader | openhands/server/user_auth/authelia_forward_auth.py:18-24 | the value found is never empty |
| ForwardAuth.FirstHeaderFirstSet | openhands/server/user_auth/authelia_forward_auth.py:18-24 | None iff no candidate is set; otherwise the value of a set candidate with no set candidate before it |
| ForwardAuth.ScanFirstHeader | openhands/server/user_auth/authelia_forward_auth.py:18-24 | the early-return loop computes FirstHeader |
| ForwardAuth.FirstHeaderAppend | openhands/server/user_auth/authelia_forward_auth.py:18-24 | later candidates matter only when none of the earlier ones is set |
| ForwardAuth.IdentityField | openhands/server/user_auth/authelia_forward_auth.py:61-90 | the configured header wins when it yields a non-empty value; otherwise the first set header of the fixed list; never empty |
| ForwardAuth.OverrideGoesFirst | openhands/server/user_auth/authelia_forward_auth.py:61-90 | a configured override acts as the first entry of the fallback list |
| ForwardAuth.GetUserFromHeaders | openhands/server/user_auth/authelia_forward_auth.py:50-91 | the step-by-step reassignment computes the user, email and name of UserFromHeaders |
| ForwardAuth.GetUserId | openhands/server/user_auth/authelia_forward_auth.py:93-95 | the user when there is one, else the email |
| ForwardAuth.GetUserEmail | openhands/server/user_auth/authelia_forward_auth.py:62-99 | the configured email header's value when the override is set and that value is non-empty; otherwise the first set header of X-Forwarded-Email, Remote-Email, X-Remote-Email, X-Auth-Request-Email |
| ForwardAuth.UserIdPresence | openhands/server/user_auth/authelia_forward_auth.py:93-95 | there is a user id iff a user or an email was found, and it is never empty |
| ForwardAuth.RemoteUserExample | openhands/server/user_auth/authelia_forward_auth.py:68-75 | without overrides, a lone `Remote-User` identifies the user |
| ForwardAuth.GetAccessToken | openhands/server/user_auth/authelia_forward_auth.py:101-103 | always None |
| ForwardAuth.GetAuthType | openhands/server/user_auth/authelia_forward_auth.py:157-158 | always COOKIE |
| ForwardAuth.AutheliaForwardAuth.constructor | openhands/server/user_auth/authelia_forward_auth.py:160-162 | a fresh instance with nothing memoised, whose stores are looked up under the user id from the headers |

## Left out

- HTTP and framework plumbing: FastAPI routing, dependency injection, JSON responses, async/await and logging.
  - Responses are a status and a message.
  - The blanket `except Exception` blocks that answer 500 are not modelled, except in SecretsRoutes.GetIntegrations, where reading the integrations of nothing loaded answers 500. The other handlers' exception paths are not represented.
- Storage backends and concurrency.
  - `SecretsStore`/`SettingsStore` `load`/`store` and `get_instance` are inputs and outputs.
  - Overlapping requests are not modelled.
- Network calls.
  - `validate_provider_token` is a parameter.
  - The HTTP client is a parameter: the reply the adapter would receive.
  - `execute_request`, `handle_http_status_error` and `handle_http_error` are not part of this model; their errors are named by what they report.
- `CustomSecret.from_value` is assumed to return a CustomSecret object unchanged (KeepsSecretObjects). SecretObjectsReload, RebuildKeepsSecrets, CreateAppendsSecret, UpdateMovesSecret and DeleteRemovesSecret require this; the converter's own code is not part of this model.
- The `ProviderType` enum's file is not part of this model. Its five members and their string values (`github`, `gitlab`, `bitbucket`, `gitea`, `forgejo`) are assumed.
- An `integrations` value that is present but not a list is not representable: the raw input holds an absent key or a list. The validator passes such a value through unchanged to the field's own validation, which is not modelled. In particular a falsy non-list such as `None` reaches the field as it is whenever the migration does not run (no non-empty `provider_tokens` dict or mapping), where the model gives an empty list.
- The converters `ProviderToken.from_value`, `CustomSecret.from_value`, `Integration.from_dict` and `Integration.from_legacy_provider_token` are not part of this model. They are partial functions, constrained only by the CustomSecret assumption above, and nothing is assumed about how migrated integration ids are derived.
- Pydantic internals.
  - `SecretStr` is an optional string that counts as unset when empty.
  - `MappingProxyType` is a dict passed as a read-only mapping.
  - `model_copy` is a record update.
  - The masked encoding is a string of `*`.
- Decoding in the Authelia JWT fallback.
  - `base64.b64decode` and `json.loads` are one partial function.
  - Claims are strings, and decoded JSON that is not an object is not modelled.
- `_parse_microagent_content`, `get_microagent_content`, `get_user`, `verify_access` and the repository-detail and PR-detail requests are not modelled beyond the rules stated above.
- Environment variables: `FORWARDED_*_HEADER` are parameters. `OPENHANDS_FORGEJO_SERVICE_CLS`/`get_impl` and the `ForgejoService = GiteaService` alias are dropped.
- Header names are exact keys: the case-insensitive header lookup is not modelled.
- Strs.Lower: lower-cases ASCII letters only, where Python's `lower` covers all of Unicode.
- GiteaBase.RepositoriesFromSearch: a search body that is a list raises AttributeError in the code. The model takes only the `data` field, absent or present.
- `Integration` and `SecretStr` are not imported in the routes module. The model follows the evident intent, not the resulting NameError.
- The `Branch` record's own validation is not modelled: the record is built from the converted fields.
- SecretsRoutes.StoreProviderTokens: the provider tokens that `check_provider_tokens` compares against (the `get_provider_tokens` dependency) and the secrets that are merged and stored (`secrets_store.load()`) are two independent inputs. The model assumes no relation between them.

## Findings

| source | as written | input that shows it | evidently intended | confidence | as-written member | corrected member |
|---|---|---|---|---|---|---|
| openhands/server/routes/secrets.py:527-533 | the collision check compares entries holding the new id with `updated_integrations[-1]`, the list's last entry, rather than with the entry being renamed | integrations `a`, `b`; update `a` with new id `c`: the rewritten `a` holds `c` and differs from `b`, so the 400 "already exists" is returned | refuse a rename only when another entry already holds the new id | not executed | SecretsRoutes.UpdateIntegrationCounterexample | SecretsRoutes.UpdateIntegrationIntended |
| openhands/server/routes/secrets.py:240-245 | creating a custom secret rebuilds the aggregate from the custom secrets and provider tokens only, so integrations are re-derived by migration from the tokens | a user with no provider tokens and one integration `i` added through the integrations API creates a secret: the stored aggregate has no integrations | keep the stored integrations when adding a secret | not executed | SecretsRoutes.CreateDropsIntegrations | SecretsRoutes.CreateCustomSecretIntended |
