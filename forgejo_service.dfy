/**
 * The Forgejo adapter: the shared Gitea-compatible adapter with Codeberg
 * as its default domain and Forgejo as its provider.
 */
module Forgejo {
  import opened Wrappers
  import opened ServiceTypes
  import opened GiteaBase
  import opened Strs
  import UserSecretsModel

  const CodebergDomain := "codeberg.org"

  /** The domain handed to the shared constructor: a missing or empty one becomes Codeberg. */
  function ForgejoBaseDomain(baseDomain: Option<string>): (d: string)
    ensures d != []
    ensures baseDomain.None? || baseDomain.value == [] ==> d == CodebergDomain
    ensures baseDomain.Some? && baseDomain.value != [] ==> d == baseDomain.value
  {
    if baseDomain.None? || baseDomain.value == [] then CodebergDomain else baseDomain.value
  }

  /**
   * The base URL a Forgejo adapter ends up with: Codeberg's API when no
   * domain is given, otherwise exactly what the shared rule derives from
   * the given domain; never the gitea.com default for a missing domain.
   */
  lemma ForgejoBaseUrl(baseDomain: Option<string>)
    ensures baseDomain.None? || baseDomain.value == [] ==>
      BaseUrlFor(Some(ForgejoBaseDomain(baseDomain))) == "https://" + CodebergDomain + ApiSuffix
    ensures baseDomain.Some? && baseDomain.value != [] ==>
      BaseUrlFor(Some(ForgejoBaseDomain(baseDomain))) == BaseUrlFor(baseDomain)
    ensures baseDomain.None? || baseDomain.value == [] ==>
      BaseUrlFor(Some(ForgejoBaseDomain(baseDomain))) != BaseUrlFor(baseDomain)
  {
    if baseDomain.None? || baseDomain.value == [] {
      assert !StartsWith(CodebergDomain, "http://") && !StartsWith(CodebergDomain, "https://") by {
        assert CodebergDomain[0] == 'c';
      }
      var url := "https://" + CodebergDomain + ApiSuffix;
      assert url[8] == 'c' && DefaultBaseUrl[8] == 'g';
    }
  }

  /**
   * `ForgejoService.__init__`: every argument goes to the shared
   * constructor unchanged except the domain, which defaults to Codeberg;
   * the adapter's provider is Forgejo.
   */
  method NewForgejoService(
    userId: Option<string>,
    externalAuthId: Option<string>,
    externalAuthToken: Option<string>,
    token: Option<string>,
    externalTokenManager: bool,
    baseDomain: Option<string>)
    returns (s: BaseGiteaService)
    ensures fresh(s)
    ensures s.provider == Forgejo && s.provider.Value() == "forgejo"
    ensures s.token == if UserSecretsModel.IsSet(token) then token.value else ""
    ensures s.baseUrl == BaseUrlFor(Some(ForgejoBaseDomain(baseDomain)))
    ensures s.userId == userId && s.externalAuthId == externalAuthId
    ensures s.externalAuthToken == externalAuthToken && s.externalTokenManager == externalTokenManager
  {
    var domain := ForgejoBaseDomain(baseDomain);
    s := new BaseGiteaService(userId, externalAuthId, externalAuthToken, token, externalTokenManager,
                              Some(domain), Forgejo);
  }
}
