/**
 * The adapter shared by Gitea-compatible forges: base-URL derivation, the
 * request headers, the mapping of HTTP failures to adapter errors, query
 * parameters with the page-size cap, record conversion with its defaults,
 * the suggested-task scan, and branch pagination and search done on the
 * client side.
 *
 * Every HTTP exchange is an input: the reply the adapter would receive, or
 * a function from repository name to what the listing for it returned.
 */
module GiteaBase {
  import opened Wrappers
  import opened Dicts
  import opened Strs
  import opened ServiceTypes
  import UserSecretsModel

  const GiteaDomain := "gitea.com"
  const ApiSuffix := "/api/v1"
  /** `https://gitea.com/api/v1`. */
  const DefaultBaseUrl := "https://" + GiteaDomain + ApiSuffix

  /**
   * BASE_URL for a `base_domain`: a domain that already names its scheme is
   * used as given, any other non-empty domain gets `https://`, and no
   * domain keeps the gitea.com default.
   */
  function BaseUrlFor(baseDomain: Option<string>): (url: string)
    ensures baseDomain.None? || baseDomain.value == [] ==> url == DefaultBaseUrl
    ensures baseDomain.Some? && baseDomain.value != [] ==>
      if StartsWith(baseDomain.value, "http://") || StartsWith(baseDomain.value, "https://")
      then url == baseDomain.value + ApiSuffix
      else url == "https://" + baseDomain.value + ApiSuffix
  {
    if baseDomain.None? || baseDomain.value == [] then DefaultBaseUrl
    else
      var d := baseDomain.value;
      if StartsWith(d, "http://") || StartsWith(d, "https://") then d + ApiSuffix
      else "https://" + d + ApiSuffix
  }

  /** Whatever the domain, the URL names an http or https scheme and ends in the API path. */
  lemma BaseUrlShape(baseDomain: Option<string>)
    ensures var url := BaseUrlFor(baseDomain);
      (StartsWith(url, "http://") || StartsWith(url, "https://")) && EndsWith(url, ApiSuffix)
  {
    var url := BaseUrlFor(baseDomain);
    if baseDomain.Some? && baseDomain.value != [] {
      var d := baseDomain.value;
      if StartsWith(d, "http://") {
        assert url[..7] == d[..7];
      } else if StartsWith(d, "https://") {
        assert url[..8] == d[..8];
      } else {
        assert url[..8] == "https://";
      }
      assert url[|url| - 7..] == ApiSuffix;
    }
  }

  /** A domain without a scheme is recovered from the URL between `https://` and the API path. */
  lemma BaseUrlKeepsDomain(d: string)
    requires d != [] && !StartsWith(d, "http://") && !StartsWith(d, "https://")
    ensures var url := BaseUrlFor(Some(d)); |url| == |d| + 15 && url[8..|url| - 7] == d
  {
  }

  /** Headers every request carries; `Authorization` follows when there is a token. */
  const FixedHeaders: Dict<string, string> := [
    ("Accept", "application/json"),
    ("Content-Type", "application/json"),
    ("User-Agent", "OpenHands-Gitea-Integration/1.0")]

  /** The headers built for a token value. */
  function HeadersFor(token: string): Dict<string, string> {
    FixedHeaders + if token != "" then [("Authorization", "token " + token)] else []
  }

  /**
   * The fixed headers are always there, and `Authorization` is present
   * exactly when the token is non-empty, as `token <value>`.
   */
  lemma HeadersForAuthorization(token: string)
    ensures forall i :: 0 <= i < |FixedHeaders| ==> Get(HeadersFor(token), FixedHeaders[i].0) == Some(FixedHeaders[i].1)
    ensures HasKey(HeadersFor(token), "Authorization") <==> token != ""
    ensures token != "" ==> Get(HeadersFor(token), "Authorization") == Some("token " + token)
  {
    var h := HeadersFor(token);
    assert DistinctKeys(h);
    forall i | 0 <= i < |FixedHeaders|
      ensures Get(h, FixedHeaders[i].0) == Some(FixedHeaders[i].1)
    {
      assert h[i] == FixedHeaders[i];
      GetAt(h, i);
    }
    if token != "" {
      assert h[3] == ("Authorization", "token " + token);
      GetAt(h, 3);
    } else {
      assert Keys(h) == ["Accept", "Content-Type", "User-Agent"];
    }
  }

  /** What an API reply turns into: its body on 2xx, otherwise the adapter error for the failure. */
  function MapReply<B>(reply: HttpReply<B>): (r: Result<B, GitError>)
    ensures r.Success? <==> reply.Reply? && IsSuccess(reply.status)
    ensures r.Success? ==> r.value == reply.body
    ensures reply.Reply? && reply.status == 401 ==> r == Failure(AuthenticationError("Invalid token"))
    ensures reply.Reply? && reply.status == 404 ==> r == Failure(ResourceNotFoundError("Resource not found"))
    ensures reply.Reply? && !IsSuccess(reply.status) && reply.status != 401 && reply.status != 404 ==>
      r == Failure(UnknownException(Some(reply.status)))
    ensures reply.TransportFailure? ==> r == Failure(UnknownException(None))
  {
    match reply
    case TransportFailure => Failure(UnknownException(None))
    case Reply(status, body) =>
      if IsSuccess(status) then Success(body)
      else if status == 401 then Failure(AuthenticationError("Invalid token"))
      else if status == 404 then Failure(ResourceNotFoundError("Resource not found"))
      else Failure(UnknownException(Some(status)))
  }

  /** `_has_token_expired`. */
  predicate HasTokenExpired(status: int) {
    status == 401
  }

  /** A reply is rejected as an authentication failure exactly when its status means the token expired. */
  lemma AuthenticationErrorIffExpired<B>(status: int, body: B)
    ensures MapReply(Reply(status, body)).Failure? && MapReply(Reply(status, body)).error.AuthenticationError?
        <==> HasTokenExpired(status)
  {
  }

  /** A directory listing item: the `type`, `name` and `path` keys, each possibly absent. */
  datatype DirItem = DirItem(itemType: Option<string>, name: Option<string>, path: Option<string>)

  /** A microagent file: type `file`, a name ending in `.md` and not starting with a dot. */
  predicate IsValidMicroagentFile(item: DirItem) {
    var name := item.name.GetOr("");
    item.itemType == Some("file") && EndsWith(name, ".md") && !StartsWith(name, ".")
  }

  /** An accepted file has a present name with at least one character before `.md`. */
  lemma MicroagentFileNamed(item: DirItem)
    requires IsValidMicroagentFile(item)
    ensures item.name.Some? && |item.name.value| > 3
    ensures item.name.value[|item.name.value| - 3..] == ".md" && item.name.value[0] != '.'
  {
  }

  /** The file path of a listing item: its `path`, or empty. */
  function FilePathFromItem(item: DirItem): (p: string)
    ensures item.path.Some? ==> p == item.path.value
    ensures item.path.None? ==> p == ""
  {
    item.path.GetOr("")
  }

  /** A query parameter value. */
  datatype Param = Text(s: string) | Number(n: int) | Flag(b: bool)

  /** The cap Gitea puts on a page. */
  const MaxPerPage := 100

  /** `search_repositories`' parameters. */
  function SearchParams(query: string, perPage: int, sort: string, order: string, public: bool): Dict<string, Param> {
    [("q", Text(query)), ("limit", Number(Min(perPage, MaxPerPage))), ("sort", Text(sort)), ("order", Text(order))]
      + if public then [("is_private", Flag(false))] else []
  }

  /** `get_paginated_repos`' parameters. */
  function PaginatedReposParams(page: int, perPage: int, sort: string): Dict<string, Param> {
    [("page", Number(page)), ("limit", Number(Min(perPage, MaxPerPage))), ("sort", Text(sort))]
  }

  /** `get_all_repositories`' parameters. */
  function AllReposParams(sort: string): Dict<string, Param> {
    [("sort", Text(sort)), ("limit", Number(MaxPerPage))]
  }

  /**
   * The requested page size is `min(per_page, 100)`: the caller's size
   * when that is within the cap and 100 otherwise; `is_private=False` is
   * sent only for a public search.
   */
  lemma PageSizeClamped(query: string, page: int, perPage: int, sort: string, order: string, public: bool)
    ensures var limit := Get(SearchParams(query, perPage, sort, order, public), "limit");
      limit.Some? && limit.value.Number? && limit.value.n <= MaxPerPage
      && (perPage <= MaxPerPage ==> limit.value.n == perPage)
      && (perPage > MaxPerPage ==> limit.value.n == MaxPerPage)
    ensures Get(PaginatedReposParams(page, perPage, sort), "limit") == Get(SearchParams(query, perPage, sort, order, public), "limit")
    ensures HasKey(SearchParams(query, perPage, sort, order, public), "is_private") <==> public
    ensures public ==> Get(SearchParams(query, perPage, sort, order, public), "is_private") == Some(Flag(false))
    ensures Get(AllReposParams(sort), "limit") == Some(Number(MaxPerPage))
  {
    var s := SearchParams(query, perPage, sort, order, public);
    var p := PaginatedReposParams(page, perPage, sort);
    assert DistinctKeys(s) && DistinctKeys(p);
    GetAt(s, 1);
    GetAt(p, 1);
    GetAt(AllReposParams(sort), 1);
    if public {
      GetAt(s, 4);
    } else {
      assert Keys(s) == ["q", "limit", "sort", "order"];
    }
  }

  /** A repository record as the API returns it; every key may be absent. */
  datatype RepoData = RepoData(
    id: Option<string>,
    fullName: Option<string>,
    private: Option<bool>,
    starsCount: Option<int>,
    updatedAt: Option<string>,
    ownerType: Option<string>,
    defaultBranch: Option<string>)

  /**
   * `_convert_to_repository`: `id` and `full_name` are required (a missing
   * one raises KeyError); the rest default to public, no stars, no push
   * date, a user owner and the `main` branch.
   */
  function ConvertToRepository(data: RepoData, provider: ProviderType): (r: Result<Repository, GitError>)
    ensures r.Success? <==> data.id.Some? && data.fullName.Some?
    ensures data.id.None? ==> r == Failure(KeyError("id"))
    ensures data.id.Some? && data.fullName.None? ==> r == Failure(KeyError("full_name"))
    ensures r.Success? ==>
      && r.value.id == data.id.value
      && r.value.fullName == data.fullName.value
      && r.value.gitProvider == provider
      && (r.value.isPublic <==> data.private != Some(true))
      && r.value.stargazersCount == (if data.starsCount.Some? then data.starsCount.value else 0)
      && r.value.pushedAt == data.updatedAt
      && (r.value.ownerType == Organization <==> data.ownerType == Some("Organization"))
      && r.value.mainBranch == (if data.defaultBranch.Some? then data.defaultBranch.value else "main")
  {
    if data.id.None? then Failure(KeyError("id"))
    else if data.fullName.None? then Failure(KeyError("full_name"))
    else
      Success(Repository(
        data.id.value,
        data.fullName.value,
        provider,
        !data.private.GetOr(false),
        data.starsCount.GetOr(0),
        data.updatedAt,
        if data.ownerType == Some("Organization") then Organization else User,
        data.defaultBranch.GetOr("main")))
  }

  /** A listing body: a bare array, or an object whose `data` key may hold the array. */
  datatype Listing = Items(items: seq<RepoData>) | Object(data: Option<seq<RepoData>>)

  /** The records of a listing body, taking either shape; a missing `data` is an empty list. */
  function ListedRecords(body: Listing): seq<RepoData> {
    match body
    case Items(items) => items
    case Object(data) => data.GetOr([])
  }

  function RepositoryConversion(provider: ProviderType): RepoData -> Result<Repository, GitError> {
    (data: RepoData) => ConvertToRepository(data, provider)
  }

  /**
   * `get_all_repositories` and `get_paginated_repos` after the request:
   * every listed record converted in order, or the error of the first one
   * that is missing a required key.
   */
  function RepositoriesFromListing(body: Listing, provider: ProviderType): (r: Result<seq<Repository>, GitError>)
    ensures r.Success? <==> forall i :: 0 <= i < |ListedRecords(body)| ==> ListedRecords(body)[i].id.Some? && ListedRecords(body)[i].fullName.Some?
    ensures r.Success? ==>
      && |r.value| == |ListedRecords(body)|
      && forall i :: 0 <= i < |r.value| ==> Success(r.value[i]) == ConvertToRepository(ListedRecords(body)[i], provider)
  {
    ConvertAll(ListedRecords(body), RepositoryConversion(provider))
  }

  /**
   * `search_repositories` after the request: the records under the body's
   * `data` key (none when it is missing), converted in order the same way.
   */
  function RepositoriesFromSearch(data: Option<seq<RepoData>>, provider: ProviderType): (r: Result<seq<Repository>, GitError>)
    ensures r == RepositoriesFromListing(Object(data), provider)
    ensures data.None? ==> r == Success([])
  {
    ConvertAll(data.GetOr([]), RepositoryConversion(provider))
  }

  /** An issue or pull request as listed: `number` and `title`, each possibly absent. */
  datatype ItemData = ItemData(number: Option<int>, title: Option<string>)

  /** What listing the open issues or pull requests of a repository (by full name) returned, or the error it raised. */
  type FetchItems = string -> Result<seq<ItemData>, GitError>

  /** An item with a truthy number and title yields a task of the given kind for the repository. */
  function ItemTask(provider: ProviderType, kind: TaskType, repo: string): ItemData -> Option<SuggestedTask> {
    (item: ItemData) =>
      if item.number.Some? && item.number.value != 0 && item.title.Some? && item.title.value != "" then
        Some(SuggestedTask(provider, kind, repo, item.number.value, item.title.value))
      else None
  }

  /**
   * The tasks of one repository: its issues' tasks, then its pull requests'.
   * A failed issue listing skips the repository; a failed pull-request
   * listing keeps the issue tasks already collected.
   */
  function RepoTasks(repo: Repository, issues: FetchItems, prs: FetchItems, provider: ProviderType): seq<SuggestedTask> {
    match issues(repo.fullName)
    case Failure(_) => []
    case Success(found) =>
      FilterMap(found, ItemTask(provider, OpenIssue, repo.fullName))
        + match prs(repo.fullName)
          case Failure(_) => []
          case Success(ps) => FilterMap(ps, ItemTask(provider, OpenPr, repo.fullName))
  }

  /**
   * A task of one repository carries that repository's name, the provider,
   * and the non-zero number and non-empty title of a listed item.
   */
  lemma RepoTasksOrigin(repo: Repository, issues: FetchItems, prs: FetchItems, provider: ProviderType, t: SuggestedTask)
    requires t in RepoTasks(repo, issues, prs, provider)
    ensures t.repo == repo.fullName && t.gitProvider == provider && t.issueNumber != 0 && t.title != ""
  {
    var found := issues(repo.fullName).value;
    if t in FilterMap(found, ItemTask(provider, OpenIssue, repo.fullName)) {
      FilterMapMember(found, ItemTask(provider, OpenIssue, repo.fullName), t);
    } else {
      var ps := prs(repo.fullName).value;
      FilterMapMember(ps, ItemTask(provider, OpenPr, repo.fullName), t);
    }
  }

  /** The tasks of a run of repositories, repository by repository. */
  function TasksFor(repos: seq<Repository>, issues: FetchItems, prs: FetchItems, provider: ProviderType): seq<SuggestedTask> {
    FlatMap(repos, (repo: Repository) => RepoTasks(repo, issues, prs, provider))
  }

  /** The scan is repository by repository: a split of the repositories splits the tasks the same way. */
  lemma TasksForAppend(a: seq<Repository>, b: seq<Repository>, issues: FetchItems, prs: FetchItems, provider: ProviderType)
    ensures TasksFor(a + b, issues, prs, provider) == TasksFor(a, issues, prs, provider) + TasksFor(b, issues, prs, provider)
  {
    FlatMapAppend(a, b, (repo: Repository) => RepoTasks(repo, issues, prs, provider));
  }

  /** One more repository adds its own tasks at the end. */
  lemma TasksForStep(repos: seq<Repository>, i: nat, issues: FetchItems, prs: FetchItems, provider: ProviderType)
    requires i < |repos|
    ensures TasksFor(repos[..i + 1], issues, prs, provider)
      == TasksFor(repos[..i], issues, prs, provider) + RepoTasks(repos[i], issues, prs, provider)
  {
    assert repos[..i + 1] == repos[..i] + [repos[i]];
    TasksForAppend(repos[..i], [repos[i]], issues, prs, provider);
    assert [repos[i]][..0] == [];
  }

  /**
   * Every task comes from one of the scanned repositories, with that
   * repository's name, the provider, and a non-zero number and non-empty
   * title taken from a listed item.
   */
  lemma TasksOrigin(repos: seq<Repository>, issues: FetchItems, prs: FetchItems, provider: ProviderType, t: SuggestedTask)
    requires t in TasksFor(repos, issues, prs, provider)
    ensures exists i :: 0 <= i < |repos| && t.repo == repos[i].fullName
    ensures t.gitProvider == provider && t.issueNumber != 0 && t.title != ""
  {
    var f := (repo: Repository) => RepoTasks(repo, issues, prs, provider);
    FlatMapMember(repos, f, t);
    var i :| 0 <= i < |repos| && t in f(repos[i]);
    RepoTasksOrigin(repos[i], issues, prs, provider, t);
  }

  /** How many repositories the scan visits. */
  const ScannedRepos := 10

  /** The part of a hand-made listing the scan works on. */
  function FirstRepos(repos: seq<Repository>): (r: seq<Repository>)
    ensures |r| <= ScannedRepos && |r| <= |repos| && r == repos[..|r|]
    ensures |repos| <= ScannedRepos ==> r == repos
  {
    repos[..Min(|repos|, ScannedRepos)]
  }

  /** A branch as the API lists it: `name`, `protected`, and a `commit` object with `id` and `timestamp`. */
  datatype CommitData = CommitData(id: Option<string>, timestamp: Option<string>)

  datatype BranchData = BranchData(name: Option<string>, commit: Option<CommitData>, protected: Option<bool>)

  /**
   * One listed branch: the name is required (KeyError), the commit id
   * defaults to empty, protection to false, and the push date is the commit
   * timestamp when there is one.
   */
  function ConvertBranch(data: BranchData): (r: Result<Branch, GitError>)
    ensures r.Success? <==> data.name.Some?
    ensures r.Failure? ==> r.error == KeyError("name")
    ensures r.Success? ==>
      var commit := data.commit.GetOr(CommitData(None, None));
      && r.value.name == data.name.value
      && r.value.commitSha == Some(commit.id.GetOr(""))
      && (r.value.protected <==> data.protected == Some(true))
      && r.value.lastPushDate == commit.timestamp
  {
    if data.name.None? then Failure(KeyError("name"))
    else
      var commit := data.commit.GetOr(CommitData(None, None));
      Success(Branch(data.name.value, Some(commit.id.GetOr("")), data.protected.GetOr(false), commit.timestamp))
  }

  function BranchConversion(): BranchData -> Result<Branch, GitError> {
    (data: BranchData) => ConvertBranch(data)
  }

  /** A page of branches and where it sits. */
  datatype BranchPage = BranchPage(branches: seq<Branch>, hasNextPage: bool, currentPage: int, perPage: int, totalCount: nat)

  /**
   * `get_paginated_branches`: the listing sliced client-side from
   * `(page - 1) * per_page` for `per_page` items, with Python's slice rules
   * for out-of-range and negative bounds.
   */
  function PaginateBranches(all: seq<Branch>, page: int, perPage: int): (r: BranchPage)
    ensures r.totalCount == |all| && r.currentPage == page && r.perPage == perPage
  {
    var start := (page - 1) * perPage;
    var end := start + perPage;
    BranchPage(PySlice(all, start, end), end < |all|, page, perPage, |all|)
  }

  /**
   * For a positive page and page size the page is the slice of the
   * listing from `start = (page - 1) * per_page` for `per_page` items
   * (capped at the end), so it holds at most `per_page` branches, and there
   * is a next page exactly when `page * per_page` is short of the total.
   */
  lemma PaginateBranchesSlice(all: seq<Branch>, page: int, perPage: int)
    requires page >= 1 && perPage >= 1
    ensures var start := PageStart(page, perPage);
      PaginateBranches(all, page, perPage).branches == all[Min(start, |all|)..Min(start + perPage, |all|)]
    ensures |PaginateBranches(all, page, perPage).branches| <= perPage
    ensures PaginateBranches(all, page, perPage).hasNextPage <==> page * perPage < |all|
  {
    PageBounds(page, perPage);
    SliceWindow(all, PageStart(page, perPage), perPage);
  }

  /** `(page - 1) * per_page` for a positive page and page size: never negative. */
  function PageStart(page: int, perPage: int): nat
    requires page >= 1 && perPage >= 1
  {
    PageBounds(page, perPage);
    (page - 1) * perPage
  }

  /** A window of a given width starting at a non-negative offset. */
  lemma SliceWindow(all: seq<Branch>, start: int, width: int)
    requires start >= 0 && width >= 1
    ensures PySlice(all, start, start + width) == all[Min(start, |all|)..Min(start + width, |all|)]
    ensures |PySlice(all, start, start + width)| <= width
  {
    PySliceNonNegative(all, start, start + width);
  }

  /** The page starts at a non-negative offset and ends at `page * per_page`. */
  lemma PageBounds(page: int, perPage: int)
    requires page >= 1 && perPage >= 1
    ensures (page - 1) * perPage >= 0 && (page - 1) * perPage + perPage == page * perPage
  {
    assert (page - 1) * perPage + perPage == page * perPage;
  }

  /** 45 branches, page 2 of 20: twenty branches, and more to come. */
  lemma PaginateBranchesExample(all: seq<Branch>)
    requires |all| == 45
    ensures |PaginateBranches(all, 2, 20).branches| == 20
    ensures PaginateBranches(all, 2, 20).branches == all[20..40]
    ensures PaginateBranches(all, 2, 20).hasNextPage
  {
    PaginateBranchesSlice(all, 2, 20);
  }

  /** The branch is kept when its lower-cased name contains the lower-cased query. */
  function MatchesQuery(query: string): Branch -> Option<Branch> {
    (b: Branch) => if Contains(Lower(b.name), Lower(query)) then Some(b) else None
  }

  /** `search_branches`: the matching branches, in listing order, cut to `per_page`. */
  function SearchBranches(all: seq<Branch>, query: string, perPage: int): seq<Branch> {
    PySlice(FilterMap(all, MatchesQuery(query)), 0, perPage)
  }

  /**
   * For a non-negative page size the result is the first `per_page`
   * matching branches in listing order: every result matches and is listed,
   * every listed matching branch is in the result when there are no more
   * than `per_page` of them.
   */
  lemma SearchBranchesExact(all: seq<Branch>, query: string, perPage: int)
    requires perPage >= 0
    ensures var matching := FilterMap(all, MatchesQuery(query));
      SearchBranches(all, query, perPage) == matching[..Min(perPage, |matching|)]
    ensures |SearchBranches(all, query, perPage)| <= perPage
    ensures forall b :: b in SearchBranches(all, query, perPage) ==> b in all && Contains(Lower(b.name), Lower(query))
    ensures |FilterMap(all, MatchesQuery(query))| <= perPage ==>
      forall b :: b in all && Contains(Lower(b.name), Lower(query)) ==> b in SearchBranches(all, query, perPage)
  {
    var matching := FilterMap(all, MatchesQuery(query));
    PySliceNonNegative(matching, 0, perPage);
    var r := SearchBranches(all, query, perPage);
    forall b | b in r
      ensures b in all && Contains(Lower(b.name), Lower(query))
    {
      assert b in matching;
      FilterMapMember(all, MatchesQuery(query), b);
    }
    if |matching| <= perPage {
      forall b | b in all && Contains(Lower(b.name), Lower(query))
        ensures b in r
      {
        var i :| 0 <= i < |all| && all[i] == b;
        FilterMapMember(all, MatchesQuery(query), b);
        assert r == matching;
      }
    }
  }

  /** A pull request's details, or the error fetching them raised. */
  datatype PrDetails = PrDetails(state: Option<string>)

  /** `is_pr_open`: open when the state says so, and also whenever the details could not be fetched. */
  function IsPrOpen(details: Result<PrDetails, GitError>): (open: bool)
    ensures details.Failure? ==> open
    ensures details.Success? ==> (open <==> details.value.state == Some("open"))
  {
    details.Failure? || details.value.state == Some("open")
  }

  /**
   * A Gitea-compatible adapter: the token it was given (empty when none),
   * the API base URL, the caller's identity fields, and the provider its
   * concrete subclass stands for.
   */
  class BaseGiteaService {
    var token: string
    var baseUrl: string
    const userId: Option<string>
    const externalAuthId: Option<string>
    const externalAuthToken: Option<string>
    const externalTokenManager: bool
    const provider: ProviderType

    /** `__init__`: an empty or missing token leaves the empty default; the base URL follows BaseUrlFor. */
    constructor (
      userId: Option<string>,
      externalAuthId: Option<string>,
      externalAuthToken: Option<string>,
      token: Option<string>,
      externalTokenManager: bool,
      baseDomain: Option<string>,
      provider: ProviderType)
      ensures this.token == if UserSecretsModel.IsSet(token) then token.value else ""
      ensures this.baseUrl == BaseUrlFor(baseDomain)
      ensures this.userId == userId && this.externalAuthId == externalAuthId
      ensures this.externalAuthToken == externalAuthToken && this.externalTokenManager == externalTokenManager
      ensures this.provider == provider
    {
      this.userId := userId;
      this.externalTokenManager := externalTokenManager;
      this.provider := provider;
      this.token := if UserSecretsModel.IsSet(token) then token.value else "";
      this.baseUrl := BaseUrlFor(baseDomain);
      this.externalAuthId := externalAuthId;
      this.externalAuthToken := externalAuthToken;
    }

    /** `get_latest_token`: the adapter's own token. */
    method GetLatestToken() returns (latest: string)
      ensures latest == token
    {
      latest := token;
    }

    /**
     * `_get_gitea_headers`, given what `get_latest_token` returns: with no
     * token of its own the adapter adopts a non-empty latest token; the
     * headers are those built for the resulting token.
     */
    method GetGiteaHeaders(latest: string) returns (headers: Dict<string, string>)
      modifies this
      ensures token == if old(token) == "" && latest != "" then latest else old(token)
      ensures baseUrl == old(baseUrl)
      ensures headers == HeadersFor(token)
    {
      if token == "" {
        if latest != "" {
          token := latest;
        }
      }
      headers := HeadersFor(token);
    }

    /**
     * `_make_request` for one reply: the request carries the headers for
     * the token, and the reply's body comes back on 2xx, otherwise the
     * mapped error.
     */
    method MakeRequest<B>(reply: HttpReply<B>) returns (sent: Dict<string, string>, result: Result<B, GitError>)
      modifies this
      ensures token == old(token) && baseUrl == old(baseUrl)
      ensures sent == HeadersFor(token)
      ensures result == MapReply(reply)
    {
      var latest := GetLatestToken();
      sent := GetGiteaHeaders(latest);
      result := MapReply(reply);
    }

    /**
     * `get_suggested_tasks`: a failed repository listing fails the scan;
     * otherwise the first ten repositories are scanned in order, each
     * contributing its issue tasks, then its pull-request tasks, and a
     * repository whose listing fails contributes what it had collected
     * before the failure.
     */
    method GetSuggestedTasks(repos: Result<seq<Repository>, GitError>, issues: FetchItems, prs: FetchItems)
      returns (r: Result<seq<SuggestedTask>, GitError>)
      ensures repos.Failure? ==> r == Failure(repos.error)
      ensures repos.Success? ==> r == Success(TasksFor(FirstRepos(repos.value), issues, prs, provider))
    {
      if repos.Failure? {
        return Failure(repos.error);
      }
      var scanned := FirstRepos(repos.value);
      var tasks := [];
      var i := 0;
      while i < |scanned|
        invariant 0 <= i <= |scanned|
        invariant tasks == TasksFor(scanned[..i], issues, prs, provider)
      {
        tasks := CollectRepoTasks(tasks, scanned[i], issues, prs);
        TasksForStep(scanned, i, issues, prs, provider);
        i := i + 1;
      }
      assert scanned[..|scanned|] == scanned;
      r := Success(tasks);
    }

    /**
     * The body of the repository loop: the issue listing, then the
     * pull-request listing, each item appended as a task when it has a
     * truthy number and title; a failed listing ends the repository.
     */
    method CollectRepoTasks(tasks: seq<SuggestedTask>, repo: Repository, issues: FetchItems, prs: FetchItems)
      returns (out: seq<SuggestedTask>)
      ensures out == tasks + RepoTasks(repo, issues, prs, provider)
    {
      out := tasks;
      var issueList := issues(repo.fullName);
      if issueList.Success? {
        out := CollectTasks(out, issueList.value, OpenIssue, repo.fullName);
        ghost var withIssues := out;
        var prList := prs(repo.fullName);
        if prList.Success? {
          out := CollectTasks(out, prList.value, OpenPr, repo.fullName);
          assert out == withIssues + FilterMap(prList.value, ItemTask(provider, OpenPr, repo.fullName));
        }
      }
    }

    /** The inner loop: one task per listed item with a truthy number and title, appended in order. */
    method CollectTasks(tasks: seq<SuggestedTask>, items: seq<ItemData>, kind: TaskType, repo: string)
      returns (out: seq<SuggestedTask>)
      ensures out == tasks + FilterMap(items, ItemTask(provider, kind, repo))
    {
      ghost var f := ItemTask(provider, kind, repo);
      out := tasks;
      var j := 0;
      while j < |items|
        invariant 0 <= j <= |items|
        invariant out == tasks + FilterMap(items[..j], f)
      {
        var item := items[j];
        ghost var prev := FilterMap(items[..j], f);
        FilterMapSnoc(items[..j], item, f);
        assert items[..j + 1] == items[..j] + [item];
        if item.number.Some? && item.number.value != 0 && item.title.Some? && item.title.value != "" {
          var task := SuggestedTask(provider, kind, repo, item.number.value, item.title.value);
          assert f(item) == Some(task);
          out := out + [task];
          assert out == tasks + (prev + [task]);
        } else {
          assert f(item).None?;
        }
        j := j + 1;
      }
      assert items[..|items|] == items;
    }

    /**
     * `get_branches` after the request: each listed branch converted in
     * order, or the KeyError of the first one without a name.
     */
    method GetBranches(listed: seq<BranchData>) returns (r: Result<seq<Branch>, GitError>)
      ensures r == ConvertAll(listed, BranchConversion())
    {
      var branches := [];
      var i := 0;
      while i < |listed|
        invariant 0 <= i <= |listed| && |branches| == i
        invariant forall j :: 0 <= j < i ==> ConvertBranch(listed[j]) == Success(branches[j])
      {
        var converted := ConvertBranch(listed[i]);
        if converted.Failure? {
          ConvertAllFirstFailure(listed, BranchConversion(), i);
          return Failure(converted.error);
        }
        branches := branches + [converted.value];
        i := i + 1;
      }
      r := Success(branches);
      ConvertAllSuccess(listed, BranchConversion(), branches);
    }
  }

  /** The first failing item decides the error. */
  lemma {:induction false} ConvertAllFirstFailure<A, B>(items: seq<A>, f: A -> Result<B, GitError>, i: nat)
    requires i < |items| && f(items[i]).Failure?
    requires forall j :: 0 <= j < i ==> f(items[j]).Success?
    ensures ConvertAll(items, f) == Failure(f(items[i]).error)
  {
    if i > 0 {
      assert forall j :: 0 <= j < i - 1 ==> items[1..][j] == items[j + 1];
      ConvertAllFirstFailure(items[1..], f, i - 1);
    }
  }

  /** When every item converts, the result is the converted items. */
  lemma {:induction false} ConvertAllSuccess<A, B>(items: seq<A>, f: A -> Result<B, GitError>, converted: seq<B>)
    requires |converted| == |items|
    requires forall j :: 0 <= j < |items| ==> f(items[j]) == Success(converted[j])
    ensures ConvertAll(items, f) == Success(converted)
  {
    if items != [] {
      assert forall j :: 0 <= j < |items| - 1 ==> items[1..][j] == items[j + 1] && converted[1..][j] == converted[j + 1];
      ConvertAllSuccess(items[1..], f, converted[1..]);
      assert converted == [converted[0]] + converted[1..];
    }
  }
}
