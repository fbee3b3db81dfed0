/**
 * The stand-alone Gitea adapter. It differs from the shared Gitea-family
 * adapter in how it derives its base URL, in refusing to build headers
 * without a token, in validating `owner/repo` names, in its microagent
 * file filter, and in retrying a request once on 401 when `refresh` is set.
 */
module Gitea {
  import opened Wrappers
  import opened Dicts
  import opened Strs
  import opened ServiceTypes
  import opened GiteaBase
  import UserSecretsModel

  /** BASE_URL: `https://<d>/api/v1` for a non-empty domain other than gitea.com, the gitea.com default otherwise. */
  function GiteaBaseUrl(baseDomain: Option<string>): (url: string)
    ensures baseDomain.Some? && baseDomain.value != [] && baseDomain.value != GiteaDomain ==>
      url == "https://" + baseDomain.value + ApiSuffix
    ensures baseDomain.None? || baseDomain.value == [] || baseDomain.value == GiteaDomain ==> url == DefaultBaseUrl
  {
    if baseDomain.Some? && baseDomain.value != [] && baseDomain.value != GiteaDomain then "https://" + baseDomain.value + ApiSuffix
    else DefaultBaseUrl
  }

  /** For a bare host name this adapter and the shared one agree, gitea.com included. */
  lemma GiteaBaseUrlAgreesOnHost(d: string)
    requires !StartsWith(d, "http://") && !StartsWith(d, "https://")
    ensures GiteaBaseUrl(Some(d)) == BaseUrlFor(Some(d))
  {
  }

  /** A domain that already names the http scheme is kept by the shared adapter but gets a second scheme here. */
  lemma GiteaBaseUrlDoublesScheme(d: string)
    requires StartsWith(d, "http://")
    ensures GiteaBaseUrl(Some(d)) == "https://" + BaseUrlFor(Some(d))
  {
    assert d != GiteaDomain by { assert d[0] == 'h'; }
    assert "https://" + d + ApiSuffix == "https://" + (d + ApiSuffix);
  }

  const ExternalTokenMissing := "External auth token is required when external_token_manager is True"
  const TokenRequired := "Gitea token is required"

  /** Why a request could not be answered with a body. */
  datatype RequestFailure =
    | HeaderFailure(error: GitError)   // the headers could not be built; nothing was sent
    | StatusFailure(status: int)       // a non-2xx reply, handed to the status-error handler
    | TransportError                   // no reply, handed to the transport-error handler

  /** The body of a 2xx reply, or the failure `raise_for_status` or the transport reports. */
  function Settle<B>(reply: HttpReply<B>): (r: Result<B, RequestFailure>)
    ensures r.Success? <==> reply.Reply? && IsSuccess(reply.status)
    ensures r.Success? ==> r.value == reply.body
    ensures reply.Reply? && !IsSuccess(reply.status) ==> r == Failure(StatusFailure(reply.status))
    ensures reply.TransportFailure? ==> r == Failure(TransportError)
  {
    match reply
    case TransportFailure => Failure(TransportError)
    case Reply(status, body) => if IsSuccess(status) then Success(body) else Failure(StatusFailure(status))
  }

  /** A `owner/repo` name split at its first slash; a name without one raises ValueError. */
  function SplitRepoName(repository: string): (r: Result<(string, string), GitError>)
    ensures r.Failure? <==> '/' !in repository
    ensures r.Failure? ==> r.error == ValueError("Invalid repository format: " + repository + ". Expected: owner/repo")
    ensures r.Success? ==> r.value.0 + "/" + r.value.1 == repository && '/' !in r.value.0
  {
    match IndexOf(repository, '/')
    case None => Failure(ValueError("Invalid repository format: " + repository + ". Expected: owner/repo"))
    case Some(i) =>
      assert repository == repository[..i] + "/" + repository[i + 1..];
      Success((repository[..i], repository[i + 1..]))
  }

  /** Splitting undoes joining: an owner without a slash and any repo come back apart. */
  lemma SplitRepoNameJoin(owner: string, repo: string)
    requires '/' !in owner
    ensures SplitRepoName(owner + "/" + repo) == Success((owner, repo))
  {
    var s := owner + "/" + repo;
    assert s[|owner|] == '/';
    var i := IndexOf(s, '/').value;
    assert i == |owner|;
    assert s[..i] == owner;
    assert s[i + 1..] == repo;
  }

  /** A listing item accepted by this adapter's filter: `type` and `name` are required keys (KeyError), read lazily. */
  function IsValidMicroagentFile(item: DirItem): (r: Result<bool, GitError>)
    ensures item.itemType.None? ==> r == Failure(KeyError("type"))
    ensures item.itemType.Some? && item.itemType.value != "file" ==> r == Success(false)
    ensures item.itemType == Some("file") && item.name.None? ==> r == Failure(KeyError("name"))
    ensures r == Success(true) <==>
      item.itemType == Some("file") && item.name.Some? && EndsWith(item.name.value, ".md") && item.name.value != "README.md"
  {
    if item.itemType.None? then Failure(KeyError("type"))
    else if item.itemType.value != "file" then Success(false)
    else if item.name.None? then Failure(KeyError("name"))
    else Success(EndsWith(item.name.value, ".md") && item.name.value != "README.md")
  }

  /** The two filters disagree on dot-files and on the README: each accepts a file the other rejects. */
  lemma MicroagentFiltersDiffer()
    ensures var hidden := DirItem(Some("file"), Some(".hidden.md"), None);
      IsValidMicroagentFile(hidden) == Success(true) && !GiteaBase.IsValidMicroagentFile(hidden)
    ensures var readme := DirItem(Some("file"), Some("README.md"), None);
      IsValidMicroagentFile(readme) == Success(false) && GiteaBase.IsValidMicroagentFile(readme)
  {
    assert EndsWith(".hidden.md", ".md") by {
      assert ".hidden.md"[7..] == ".md";
    }
    assert StartsWith(".hidden.md", ".");
    assert EndsWith("README.md", ".md") by {
      assert "README.md"[6..] == ".md";
    }
    assert !StartsWith("README.md", ".") by {
      assert "README.md"[0] == 'R';
    }
  }

  /** The file path of a listing item: the microagents directory, a slash, and the item's required `name`. */
  function FilePathFromItem(item: DirItem, microagentsPath: string): (r: Result<string, GitError>)
    ensures r.Failure? <==> item.name.None?
    ensures r.Success? ==> r.value == microagentsPath + "/" + item.name.value && EndsWith(r.value, item.name.value)
  {
    if item.name.None? then Failure(KeyError("name")) else Success(microagentsPath + "/" + item.name.value)
  }

  /**
   * One listed branch: the name goes through `.get`, and a missing name is
   * refused by the Branch record; the commit id may be absent, protection
   * defaults to false, and no push date is kept.
   */
  function ConvertGiteaBranch(data: BranchData): (r: Result<Branch, GitError>)
    ensures r.Success? <==> data.name.Some?
    ensures r.Success? ==>
      && r.value.name == data.name.value
      && r.value.commitSha == (if data.commit.Some? then data.commit.value.id else None)
      && (r.value.protected <==> data.protected == Some(true))
      && r.value.lastPushDate == None
  {
    if data.name.None? then Failure(ValueError("name"))
    else
      var sha := if data.commit.Some? then data.commit.value.id else None;
      Success(Branch(data.name.value, sha, data.protected.GetOr(false), None))
  }

  function GiteaBranchConversion(): BranchData -> Result<Branch, GitError> {
    (data: BranchData) => ConvertGiteaBranch(data)
  }

  class GiteaService {
    var token: string
    var baseUrl: string
    var refresh: bool
    const userId: Option<string>
    const externalAuthId: Option<string>
    const externalAuthToken: Option<string>
    const externalTokenManager: bool

    /** `__init__`: an empty or missing token leaves the empty default; `refresh` starts off. */
    constructor (
      userId: Option<string>,
      externalAuthId: Option<string>,
      externalAuthToken: Option<string>,
      token: Option<string>,
      externalTokenManager: bool,
      baseDomain: Option<string>)
      ensures this.token == if UserSecretsModel.IsSet(token) then token.value else ""
      ensures this.baseUrl == GiteaBaseUrl(baseDomain)
      ensures !this.refresh
      ensures this.userId == userId && this.externalAuthId == externalAuthId
      ensures this.externalAuthToken == externalAuthToken && this.externalTokenManager == externalTokenManager
    {
      this.userId := userId;
      this.externalTokenManager := externalTokenManager;
      this.token := if UserSecretsModel.IsSet(token) then token.value else "";
      this.baseUrl := GiteaBaseUrl(baseDomain);
      this.externalAuthId := externalAuthId;
      this.externalAuthToken := externalAuthToken;
      this.refresh := false;
    }

    /** `provider`. */
    function Provider(): ProviderType {
      Gitea
    }

    /** The token the headers use: the external one under an external token manager, else the adapter's own. */
    function ChosenToken(): (r: Result<string, GitError>)
      reads this
      ensures externalTokenManager && !UserSecretsModel.IsSet(externalAuthToken) ==> r == Failure(ValueError(ExternalTokenMissing))
      ensures externalTokenManager && UserSecretsModel.IsSet(externalAuthToken) ==> r == Success(externalAuthToken.value)
      ensures !externalTokenManager ==> r == Success(token)
    {
      if externalTokenManager then
        if UserSecretsModel.IsSet(externalAuthToken) then Success(externalAuthToken.value)
        else Failure(ValueError(ExternalTokenMissing))
      else Success(token)
    }

    /**
     * `_get_gitea_headers`: the chosen token's failure, or ValueError when
     * it is empty, or the three headers with `Authorization: token <t>`.
     */
    function GiteaHeaders(): (r: Result<Dict<string, string>, GitError>)
      reads this
      ensures r.Success? <==> ChosenToken().Success? && ChosenToken().value != ""
      ensures ChosenToken().Failure? ==> r == Failure(ChosenToken().error)
      ensures ChosenToken() == Success("") ==> r == Failure(ValueError(TokenRequired))
      ensures r.Success? ==>
        && Get(r.value, "Authorization") == Some("token " + ChosenToken().value)
        && Get(r.value, "Accept") == Some("application/json")
        && Get(r.value, "Content-Type") == Some("application/json")
        && |r.value| == 3
    {
      match ChosenToken()
      case Failure(e) => Failure(e)
      case Success(t) =>
        if t == "" then Failure(ValueError(TokenRequired))
        else
          var h := [("Authorization", "token " + t), ("Accept", "application/json"), ("Content-Type", "application/json")];
          assert DistinctKeys(h);
          GetAt(h, 0);
          GetAt(h, 1);
          GetAt(h, 2);
          Success(h)
    }

    /**
     * `_make_request`, given the reply to the first request and the reply a
     * second request would get. Header failures send nothing; a reply of
     * 401 is followed by exactly one more request when `refresh` is set, and
     * the last reply decides the result.
     */
    method MakeRequest<B>(first: HttpReply<B>, second: HttpReply<B>) returns (r: Result<B, RequestFailure>, requests: nat)
      ensures requests <= 2
      ensures requests == 0 <==> GiteaHeaders().Failure?
      ensures requests == 0 ==> r == Failure(HeaderFailure(GiteaHeaders().error))
      ensures requests == 2 <==> GiteaHeaders().Success? && refresh && first.Reply? && HasTokenExpired(first.status)
      ensures requests == 1 ==> r == Settle(first)
      ensures requests == 2 ==> r == Settle(second)
    {
      var headers := GiteaHeaders();
      if headers.Failure? {
        return Failure(HeaderFailure(headers.error)), 0;
      }
      var response := first;
      requests := 1;
      if response.TransportFailure? {
        return Failure(TransportError), requests;
      }
      if refresh && HasTokenExpired(response.status) {
        headers := GiteaHeaders();
        response := second;
        requests := 2;
      }
      r := Settle(response);
    }

    /** `get_repository_details_from_repo_name`'s URL: the name is validated, then split back into the path. */
    function RepositoryUrl(repository: string): (r: Result<string, GitError>)
      reads this
      ensures r.Failure? <==> '/' !in repository
      ensures r.Success? ==> r.value == baseUrl + "/repos/" + repository
    {
      match SplitRepoName(repository)
      case Failure(e) => Failure(e)
      case Success((owner, repo)) =>
        assert owner + "/" + repo == repository;
        Success(baseUrl + "/repos/" + owner + "/" + repo)
    }

    /**
     * `get_branches`: an invalid name raises before any request; otherwise
     * each listed branch is converted in order.
     */
    method GetBranches(repository: string, listed: seq<BranchData>) returns (r: Result<seq<Branch>, GitError>)
      ensures '/' !in repository ==> r == Failure(SplitRepoName(repository).error)
      ensures '/' in repository ==> r == ConvertAll(listed, GiteaBranchConversion())
    {
      var split := SplitRepoName(repository);
      if split.Failure? {
        return Failure(split.error);
      }
      var branches := [];
      var i := 0;
      while i < |listed|
        invariant 0 <= i <= |listed| && |branches| == i
        invariant forall j :: 0 <= j < i ==> ConvertGiteaBranch(listed[j]) == Success(branches[j])
      {
        var converted := ConvertGiteaBranch(listed[i]);
        if converted.Failure? {
          ConvertAllFirstFailure(listed, GiteaBranchConversion(), i);
          return Failure(converted.error);
        }
        branches := branches + [converted.value];
        i := i + 1;
      }
      r := Success(branches);
      ConvertAllSuccess(listed, GiteaBranchConversion(), branches);
    }

    /** `get_installations`: Gitea has no app installations. */
    method GetInstallations() returns (installations: seq<string>)
      ensures installations == []
    {
      installations := [];
    }
  }
}
