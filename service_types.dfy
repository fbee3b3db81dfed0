/**
 * The value types shared by the git-provider adapters and the secrets
 * model: provider identifiers, repository, branch and task records, the
 * error taxonomy raised by the adapters, and an HTTP reply as the adapters
 * see it (a status code with a decoded body, or a transport failure).
 */
module ServiceTypes {
  import opened Wrappers

  /** The git providers, identified on the wire by their string value. */
  datatype ProviderType = GitHub | GitLab | Bitbucket | Gitea | Forgejo {
    function Value(): (s: string)
      ensures s != []
    {
      match this
      case GitHub => "github"
      case GitLab => "gitlab"
      case Bitbucket => "bitbucket"
      case Gitea => "gitea"
      case Forgejo => "forgejo"
    }
  }

  /** `ProviderType(s)`: the member whose value is s, or None where the enum raises ValueError. */
  function ParseProviderType(s: string): (r: Option<ProviderType>)
    ensures r.Some? ==> r.value.Value() == s
  {
    if s == "github" then Some(GitHub)
    else if s == "gitlab" then Some(GitLab)
    else if s == "bitbucket" then Some(Bitbucket)
    else if s == "gitea" then Some(Gitea)
    else if s == "forgejo" then Some(Forgejo)
    else None
  }

  /** Parsing a provider's value gives the provider back. */
  lemma ParseValue(p: ProviderType)
    ensures ParseProviderType(p.Value()) == Some(p)
  {
  }

  /** Distinct providers have distinct values, so keying by value loses nothing. */
  lemma ValueInjective(p: ProviderType, q: ProviderType)
    ensures p.Value() == q.Value() ==> p == q
  {
    if p.Value() == q.Value() {
      ParseValue(p);
      ParseValue(q);
    }
  }

  datatype OwnerType = User | Organization

  datatype TaskType = OpenIssue | OpenPr

  datatype Repository = Repository(
    id: string,
    fullName: string,
    gitProvider: ProviderType,
    isPublic: bool,
    stargazersCount: int,
    pushedAt: Option<string>,
    ownerType: OwnerType,
    mainBranch: string)

  datatype Branch = Branch(name: string, commitSha: Option<string>, protected: bool, lastPushDate: Option<string>)

  datatype SuggestedTask = SuggestedTask(
    gitProvider: ProviderType,
    taskType: TaskType,
    repo: string,
    issueNumber: int,
    title: string)

  /**
   * What the adapters raise. `UnknownException` carries the HTTP status when
   * there was one and None for a transport failure.
   */
  datatype GitError =
    | AuthenticationError(message: string)
    | ResourceNotFoundError(message: string)
    | UnknownException(status: Option<int>)
    | ValueError(message: string)
    | KeyError(key: string)

  /** An HTTP exchange: a reply with status and decoded body, or a failure before any reply. */
  datatype HttpReply<B> = Reply(status: int, body: B) | TransportFailure

  /** httpx's `raise_for_status` lets only 2xx replies through. */
  predicate IsSuccess(status: int) {
    200 <= status < 300
  }

  /**
   * A loop that converts every item and lets the first failure propagate:
   * all items converted, in order, or the error of the first that failed.
   */
  function ConvertAll<A, B>(items: seq<A>, f: A -> Result<B, GitError>): (r: Result<seq<B>, GitError>)
    ensures r.Success? <==> forall i :: 0 <= i < |items| ==> f(items[i]).Success?
    ensures r.Success? ==> |r.value| == |items| && forall i :: 0 <= i < |items| ==> r.value[i] == f(items[i]).value
    ensures r.Failure? ==>
      exists i :: 0 <= i < |items| && f(items[i]) == Failure(r.error) && forall j :: 0 <= j < i ==> f(items[j]).Success?
  {
    if items == [] then Success([])
    else
      match f(items[0])
      case Failure(e) => Failure(e)
      case Success(b) =>
        match ConvertAll(items[1..], f)
        case Failure(e) =>
          assert forall j :: 1 <= j < |items| ==> items[1..][j - 1] == items[j];
          Failure(e)
        case Success(bs) =>
          assert forall j :: 1 <= j < |items| ==> items[1..][j - 1] == items[j];
          Success([b] + bs)
  }
}
