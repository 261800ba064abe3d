/** The Bitbucket Cloud REST client: for every operation, the request it sends
    and how it turns the response into its return value. Arguments are JSON
    values as the tool dispatcher hands them over; `JNull` stands for None. */
module BitbucketClient {
  import opened Wrappers
  import opened Json
  import opened Http
  import opened Signatures

  /** Every request goes to the version 2.0 API */
  const BaseUrl := "https://api.bitbucket.org/2.0"

  /** `{BASE_URL}` followed by `path` */
  function Endpoint(path: string): (url: string)
    ensures BaseUrl <= url
  {
    BaseUrl + path
  }

  /** `{BASE_URL}/repositories/{workspace}/{repo_slug}` */
  function RepoRoot(workspace: Json, repoSlug: Json): (url: string)
    ensures BaseUrl <= url
  {
    Endpoint("/repositories/" + Str(workspace) + "/" + Str(repoSlug))
  }

  /** The repository's URL followed by `rest` */
  function Repo(workspace: Json, repoSlug: Json, rest: string): (url: string)
    ensures RepoRoot(workspace, repoSlug) <= url
    ensures BaseUrl <= url
  {
    var root := RepoRoot(workspace, repoSlug);
    PrefixTransitive(BaseUrl, root, root + rest);
    root + rest
  }

  /** `{BASE_URL}/repositories/{workspace}/{repo_slug}/pullrequests/{pr_id}` */
  function PullRequestRoot(workspace: Json, repoSlug: Json, prId: Json): (url: string)
    ensures RepoRoot(workspace, repoSlug) <= url
    ensures BaseUrl <= url
  {
    Repo(workspace, repoSlug, "/pullrequests/" + Str(prId))
  }

  /** The pull request's URL followed by `rest` */
  function PullRequest(workspace: Json, repoSlug: Json, prId: Json, rest: string): (url: string)
    ensures PullRequestRoot(workspace, repoSlug, prId) <= url
    ensures RepoRoot(workspace, repoSlug) <= url
    ensures BaseUrl <= url
  {
    var root := PullRequestRoot(workspace, repoSlug, prId);
    PrefixTransitive(RepoRoot(workspace, repoSlug), root, root + rest);
    PrefixTransitive(BaseUrl, root, root + rest);
    root + rest
  }

  /** A prefix of a prefix is a prefix */
  lemma PrefixTransitive(a: string, b: string, c: string)
    requires a <= b && b <= c
    ensures a <= c
  {
    assert c[..|b|][..|a|] == c[..|a|];
  }

  // ------------------------------------------------------------ operations

  /** One client method together with the arguments it receives */
  datatype Call =
    | GetRepository(workspace: Json, repoSlug: Json)
    | ListRepositories(workspace: Json)
    | CreateRepository(workspace: Json, repoSlug: Json, isPrivate: Json, description: Json, projectKey: Json)
    | SearchCode(workspace: Json, repoSlug: Json, searchQuery: Json)
    | ListPullRequests(workspace: Json, repoSlug: Json, state: Json)
    | GetPullRequest(workspace: Json, repoSlug: Json, prId: Json)
    | CreatePullRequest(workspace: Json, repoSlug: Json, title: Json, sourceBranch: Json,
                        destinationBranch: Json, description: Json, closeSourceBranch: Json)
    | UpdatePullRequest(workspace: Json, repoSlug: Json, prId: Json, title: Json, description: Json)
    | MergePullRequest(workspace: Json, repoSlug: Json, prId: Json, mergeStrategy: Json, message: Json)
    | DeclinePullRequest(workspace: Json, repoSlug: Json, prId: Json)
    | ApprovePullRequest(workspace: Json, repoSlug: Json, prId: Json)
    | UnapprovePullRequest(workspace: Json, repoSlug: Json, prId: Json)
    | ListPrComments(workspace: Json, repoSlug: Json, prId: Json)
    | AddPrComment(workspace: Json, repoSlug: Json, prId: Json, content: Json)
    | ListBranches(workspace: Json, repoSlug: Json)
    | GetBranch(workspace: Json, repoSlug: Json, branchName: Json)
    | CreateBranch(workspace: Json, repoSlug: Json, branchName: Json, target: Json)
    | DeleteBranch(workspace: Json, repoSlug: Json, branchName: Json)
    | ListCommits(workspace: Json, repoSlug: Json, branch: Json)
    | GetCommit(workspace: Json, repoSlug: Json, commitHash: Json)
    | GetCommitDiff(workspace: Json, repoSlug: Json, commitHash: Json)
    | ListIssues(workspace: Json, repoSlug: Json, state: Json)
    | GetIssue(workspace: Json, repoSlug: Json, issueId: Json)
    | CreateIssue(workspace: Json, repoSlug: Json, title: Json, description: Json, kind: Json, priority: Json)
    | UpdateIssue(workspace: Json, repoSlug: Json, issueId: Json, title: Json, description: Json,
                  state: Json, kind: Json, priority: Json)
    | ListWorkspaces
    | GetWorkspace(workspace: Json)

  /** The Python name of the client method */
  function MethodName(call: Call): string {
    match call
    case GetRepository(_, _) => "get_repository"
    case ListRepositories(_) => "list_repositories"
    case CreateRepository(_, _, _, _, _) => "create_repository"
    case SearchCode(_, _, _) => "search_code"
    case ListPullRequests(_, _, _) => "list_pull_requests"
    case GetPullRequest(_, _, _) => "get_pull_request"
    case CreatePullRequest(_, _, _, _, _, _, _) => "create_pull_request"
    case UpdatePullRequest(_, _, _, _, _) => "update_pull_request"
    case MergePullRequest(_, _, _, _, _) => "merge_pull_request"
    case DeclinePullRequest(_, _, _) => "decline_pull_request"
    case ApprovePullRequest(_, _, _) => "approve_pull_request"
    case UnapprovePullRequest(_, _, _) => "unapprove_pull_request"
    case ListPrComments(_, _, _) => "list_pr_comments"
    case AddPrComment(_, _, _, _) => "add_pr_comment"
    case ListBranches(_, _) => "list_branches"
    case GetBranch(_, _, _) => "get_branch"
    case CreateBranch(_, _, _, _) => "create_branch"
    case DeleteBranch(_, _, _) => "delete_branch"
    case ListCommits(_, _, _) => "list_commits"
    case GetCommit(_, _, _) => "get_commit"
    case GetCommitDiff(_, _, _) => "get_commit_diff"
    case ListIssues(_, _, _) => "list_issues"
    case GetIssue(_, _, _) => "get_issue"
    case CreateIssue(_, _, _, _, _, _) => "create_issue"
    case UpdateIssue(_, _, _, _, _, _, _, _) => "update_issue"
    case ListWorkspaces => "list_workspaces"
    case GetWorkspace(_) => "get_workspace"
  }

  /** The client's methods, in the order the class defines them and the
      order of the `Call` constructors */
  function Methods(): seq<Method> {
    RepositoryMethods() + PullRequestMethods() + BranchMethods() + CommitMethods() + IssueMethods()
      + WorkspaceMethods()
  }

  /** The method at position `k` is the one its section holds there */
  lemma MethodInSection(k: nat)
    requires k < |Methods()|
    ensures k < 4 ==> Methods()[k] == RepositoryMethods()[k]
    ensures 4 <= k < 14 ==> Methods()[k] == PullRequestMethods()[k - 4]
    ensures 14 <= k < 18 ==> Methods()[k] == BranchMethods()[k - 14]
    ensures 18 <= k < 21 ==> Methods()[k] == CommitMethods()[k - 18]
    ensures 21 <= k < 25 ==> Methods()[k] == IssueMethods()[k - 21]
    ensures 25 <= k ==> Methods()[k] == WorkspaceMethods()[k - 25]
  {
  }

  /** The repository operations (src/bitbucket_client.py:27-110) */
  function RepositoryMethods(): seq<Method> {
    [GetRepositoryMethod(), ListRepositoriesMethod(), CreateRepositoryMethod(), SearchCodeMethod()]
  }

  /** The pull request operations (src/bitbucket_client.py:112-352) */
  function PullRequestMethods(): seq<Method> {
    [ListPullRequestsMethod(), GetPullRequestMethod(), CreatePullRequestMethod(),
     UpdatePullRequestMethod(), MergePullRequestMethod(), DeclinePullRequestMethod(),
     ApprovePullRequestMethod(), UnapprovePullRequestMethod(), ListPrCommentsMethod(),
     AddPrCommentMethod()]
  }

  /** The branch operations (src/bitbucket_client.py:354-433) */
  function BranchMethods(): seq<Method> {
    [ListBranchesMethod(), GetBranchMethod(), CreateBranchMethod(), DeleteBranchMethod()]
  }

  /** The commit operations (src/bitbucket_client.py:435-493) */
  function CommitMethods(): seq<Method> {
    [ListCommitsMethod(), GetCommitMethod(), GetCommitDiffMethod()]
  }

  /** The issue operations (src/bitbucket_client.py:495-615) */
  function IssueMethods(): seq<Method> {
    [ListIssuesMethod(), GetIssueMethod(), CreateIssueMethod(), UpdateIssueMethod()]
  }

  /** The workspace operations (src/bitbucket_client.py:617-640) */
  function WorkspaceMethods(): seq<Method> {
    [ListWorkspacesMethod(), GetWorkspaceMethod()]
  }

  /** `get_repository`, src/bitbucket_client.py:29 */
  function GetRepositoryMethod(): Method {
    Method("get_repository", [Needed("workspace"), Needed("repo_slug")])
  }

  /** `list_repositories`, src/bitbucket_client.py:43 */
  function ListRepositoriesMethod(): Method {
    Method("list_repositories", [Needed("workspace")])
  }

  /** `create_repository`, src/bitbucket_client.py:56-63 */
  function CreateRepositoryMethod(): Method {
    Method("create_repository", [Needed("workspace"), Needed("repo_slug"), Param("is_private", Some(JBool(true))),
            NoneByDefault("description"), NoneByDefault("project_key")])
  }

  /** `search_code`, src/bitbucket_client.py:92-94 */
  function SearchCodeMethod(): Method {
    Method("search_code", [Needed("workspace"), Needed("repo_slug"), Needed("search_query")])
  }

  /** `list_pull_requests`, src/bitbucket_client.py:114-116 */
  function ListPullRequestsMethod(): Method {
    Method("list_pull_requests", [Needed("workspace"), Needed("repo_slug"), NoneByDefault("state")])
  }

  /** `get_pull_request`, src/bitbucket_client.py:133-135 */
  function GetPullRequestMethod(): Method {
    Method("get_pull_request", [Needed("workspace"), Needed("repo_slug"), Needed("pr_id")])
  }

  /** `create_pull_request`, src/bitbucket_client.py:152-161 */
  function CreatePullRequestMethod(): Method {
    Method("create_pull_request", [Needed("workspace"), Needed("repo_slug"), Needed("title"), Needed("source_branch"),
            Needed("destination_branch"), NoneByDefault("description"),
            Param("close_source_branch", Some(JBool(false)))])
  }

  /** `update_pull_request`, src/bitbucket_client.py:192-199 */
  function UpdatePullRequestMethod(): Method {
    Method("update_pull_request", [Needed("workspace"), Needed("repo_slug"), Needed("pr_id"), NoneByDefault("title"),
            NoneByDefault("description")])
  }

  /** `merge_pull_request`, src/bitbucket_client.py:225-232 */
  function MergePullRequestMethod(): Method {
    Method("merge_pull_request", [Needed("workspace"), Needed("repo_slug"), Needed("pr_id"),
            Param("merge_strategy", Some(JStr("merge_commit"))), NoneByDefault("message")])
  }

  /** `decline_pull_request`, src/bitbucket_client.py:256-258 */
  function DeclinePullRequestMethod(): Method {
    Method("decline_pull_request", [Needed("workspace"), Needed("repo_slug"), Needed("pr_id")])
  }

  /** `approve_pull_request`, src/bitbucket_client.py:275-277 */
  function ApprovePullRequestMethod(): Method {
    Method("approve_pull_request", [Needed("workspace"), Needed("repo_slug"), Needed("pr_id")])
  }

  /** `unapprove_pull_request`, src/bitbucket_client.py:294-296 */
  function UnapprovePullRequestMethod(): Method {
    Method("unapprove_pull_request", [Needed("workspace"), Needed("repo_slug"), Needed("pr_id")])
  }

  /** `list_pr_comments`, src/bitbucket_client.py:313-315 */
  function ListPrCommentsMethod(): Method {
    Method("list_pr_comments", [Needed("workspace"), Needed("repo_slug"), Needed("pr_id")])
  }

  /** `add_pr_comment`, src/bitbucket_client.py:332-334 */
  function AddPrCommentMethod(): Method {
    Method("add_pr_comment", [Needed("workspace"), Needed("repo_slug"), Needed("pr_id"), Needed("content")])
  }

  /** `list_branches`, src/bitbucket_client.py:356 */
  function ListBranchesMethod(): Method {
    Method("list_branches", [Needed("workspace"), Needed("repo_slug")])
  }

  /** `get_branch`, src/bitbucket_client.py:372-374 */
  function GetBranchMethod(): Method {
    Method("get_branch", [Needed("workspace"), Needed("repo_slug"), Needed("branch_name")])
  }

  /** `create_branch`, src/bitbucket_client.py:391-393 */
  function CreateBranchMethod(): Method {
    Method("create_branch", [Needed("workspace"), Needed("repo_slug"), Needed("branch_name"), Needed("target")])
  }

  /** `delete_branch`, src/bitbucket_client.py:416-418 */
  function DeleteBranchMethod(): Method {
    Method("delete_branch", [Needed("workspace"), Needed("repo_slug"), Needed("branch_name")])
  }

  /** `list_commits`, src/bitbucket_client.py:437-439 */
  function ListCommitsMethod(): Method {
    Method("list_commits", [Needed("workspace"), Needed("repo_slug"), NoneByDefault("branch")])
  }

  /** `get_commit`, src/bitbucket_client.py:457-459 */
  function GetCommitMethod(): Method {
    Method("get_commit", [Needed("workspace"), Needed("repo_slug"), Needed("commit_hash")])
  }

  /** `get_commit_diff`, src/bitbucket_client.py:476-478 */
  function GetCommitDiffMethod(): Method {
    Method("get_commit_diff", [Needed("workspace"), Needed("repo_slug"), Needed("commit_hash")])
  }

  /** `list_issues`, src/bitbucket_client.py:497-499 */
  function ListIssuesMethod(): Method {
    Method("list_issues", [Needed("workspace"), Needed("repo_slug"), NoneByDefault("state")])
  }

  /** `get_issue`, src/bitbucket_client.py:516-518 */
  function GetIssueMethod(): Method {
    Method("get_issue", [Needed("workspace"), Needed("repo_slug"), Needed("issue_id")])
  }

  /** `create_issue`, src/bitbucket_client.py:535-543 */
  function CreateIssueMethod(): Method {
    Method("create_issue", [Needed("workspace"), Needed("repo_slug"), Needed("title"), NoneByDefault("description"),
            Param("kind", Some(JStr("bug"))), Param("priority", Some(JStr("major")))])
  }

  /** `update_issue`, src/bitbucket_client.py:572-582 */
  function UpdateIssueMethod(): Method {
    Method("update_issue", [Needed("workspace"), Needed("repo_slug"), Needed("issue_id"), NoneByDefault("title"),
            NoneByDefault("description"), NoneByDefault("state"), NoneByDefault("kind"),
            NoneByDefault("priority")])
  }

  /** `list_workspaces`, src/bitbucket_client.py:619 */
  function ListWorkspacesMethod(): Method {
    Method("list_workspaces", [])
  }

  /** `get_workspace`, src/bitbucket_client.py:629 */
  function GetWorkspaceMethod(): Method {
    Method("get_workspace", [Needed("workspace")])
  }

  function MethodNames(): (ns: seq<string>)
    ensures |ns| == |Methods()|
    ensures forall k :: 0 <= k < |ns| ==> ns[k] == Methods()[k].name
  {
    seq(|Methods()|, k requires 0 <= k < |Methods()| => Methods()[k].name)
  }

  /** The signature of the method named `name`; None for a name the client
      has no method of */
  function Signature(name: string): (sig: Option<seq<Param>>)
    ensures sig.Some? <==> name in MethodNames()
  {
    match Position(MethodNames(), name)
    case None => None
    case Some(k) => Some(Methods()[k].params)
  }

  /** The values the call passes, one per parameter in signature order */
  function Args(call: Call): seq<Json> {
    match call
    case GetRepository(v0, v1) => [v0, v1]
    case ListRepositories(v0) => [v0]
    case CreateRepository(v0, v1, v2, v3, v4) => [v0, v1, v2, v3, v4]
    case SearchCode(v0, v1, v2) => [v0, v1, v2]
    case ListPullRequests(v0, v1, v2) => [v0, v1, v2]
    case GetPullRequest(v0, v1, v2) => [v0, v1, v2]
    case CreatePullRequest(v0, v1, v2, v3, v4, v5, v6) => [v0, v1, v2, v3, v4, v5, v6]
    case UpdatePullRequest(v0, v1, v2, v3, v4) => [v0, v1, v2, v3, v4]
    case MergePullRequest(v0, v1, v2, v3, v4) => [v0, v1, v2, v3, v4]
    case DeclinePullRequest(v0, v1, v2) => [v0, v1, v2]
    case ApprovePullRequest(v0, v1, v2) => [v0, v1, v2]
    case UnapprovePullRequest(v0, v1, v2) => [v0, v1, v2]
    case ListPrComments(v0, v1, v2) => [v0, v1, v2]
    case AddPrComment(v0, v1, v2, v3) => [v0, v1, v2, v3]
    case ListBranches(v0, v1) => [v0, v1]
    case GetBranch(v0, v1, v2) => [v0, v1, v2]
    case CreateBranch(v0, v1, v2, v3) => [v0, v1, v2, v3]
    case DeleteBranch(v0, v1, v2) => [v0, v1, v2]
    case ListCommits(v0, v1, v2) => [v0, v1, v2]
    case GetCommit(v0, v1, v2) => [v0, v1, v2]
    case GetCommitDiff(v0, v1, v2) => [v0, v1, v2]
    case ListIssues(v0, v1, v2) => [v0, v1, v2]
    case GetIssue(v0, v1, v2) => [v0, v1, v2]
    case CreateIssue(v0, v1, v2, v3, v4, v5) => [v0, v1, v2, v3, v4, v5]
    case UpdateIssue(v0, v1, v2, v3, v4, v5, v6, v7) => [v0, v1, v2, v3, v4, v5, v6, v7]
    case ListWorkspaces => []
    case GetWorkspace(v0) => [v0]
  }

  /** The call of the `k`-th method with one value per parameter, in
      signature order; None for the wrong number of values */
  function Make(k: nat, ws: seq<Json>): (r: Option<Call>)
    requires k < |Methods()|
    ensures r.Some? <==> |ws| == |Methods()[k].params|
    ensures r.Some? ==> MethodName(r.value) == Methods()[k].name && Args(r.value) == ws
  {
    MethodInSection(k);
    if k < 4 then MakeRepository(k, ws)
    else if k < 14 then MakePullRequest(k - 4, ws)
    else if k < 18 then MakeBranch(k - 14, ws)
    else if k < 21 then MakeCommit(k - 18, ws)
    else if k < 25 then MakeIssue(k - 21, ws)
    else MakeWorkspace(k - 25, ws)
  }

  /** `Make` for the repository operations */
  function MakeRepository(k: nat, ws: seq<Json>): (r: Option<Call>)
    requires k < |RepositoryMethods()|
    ensures r.Some? <==> |ws| == |RepositoryMethods()[k].params|
    ensures r.Some? ==> MethodName(r.value) == RepositoryMethods()[k].name && Args(r.value) == ws
  {
    match k
    case 0 => if |ws| == 2 then Some(GetRepository(ws[0], ws[1])) else None
    case 1 => if |ws| == 1 then Some(ListRepositories(ws[0])) else None
    case 2 => if |ws| == 5 then Some(CreateRepository(ws[0], ws[1], ws[2], ws[3], ws[4])) else None
    case _ => if |ws| == 3 then Some(SearchCode(ws[0], ws[1], ws[2])) else None
  }

  /** `Make` for the pull request operations */
  function MakePullRequest(k: nat, ws: seq<Json>): (r: Option<Call>)
    requires k < |PullRequestMethods()|
    ensures r.Some? <==> |ws| == |PullRequestMethods()[k].params|
    ensures r.Some? ==> MethodName(r.value) == PullRequestMethods()[k].name && Args(r.value) == ws
  {
    match k
    case 0 => if |ws| == 3 then Some(ListPullRequests(ws[0], ws[1], ws[2])) else None
    case 1 => if |ws| == 3 then Some(GetPullRequest(ws[0], ws[1], ws[2])) else None
    case 2 => if |ws| == 7 then Some(CreatePullRequest(ws[0], ws[1], ws[2], ws[3], ws[4], ws[5], ws[6])) else None
    case 3 => if |ws| == 5 then Some(UpdatePullRequest(ws[0], ws[1], ws[2], ws[3], ws[4])) else None
    case 4 => if |ws| == 5 then Some(MergePullRequest(ws[0], ws[1], ws[2], ws[3], ws[4])) else None
    case 5 => if |ws| == 3 then Some(DeclinePullRequest(ws[0], ws[1], ws[2])) else None
    case 6 => if |ws| == 3 then Some(ApprovePullRequest(ws[0], ws[1], ws[2])) else None
    case 7 => if |ws| == 3 then Some(UnapprovePullRequest(ws[0], ws[1], ws[2])) else None
    case 8 => if |ws| == 3 then Some(ListPrComments(ws[0], ws[1], ws[2])) else None
    case _ => if |ws| == 4 then Some(AddPrComment(ws[0], ws[1], ws[2], ws[3])) else None
  }

  /** `Make` for the branch operations */
  function MakeBranch(k: nat, ws: seq<Json>): (r: Option<Call>)
    requires k < |BranchMethods()|
    ensures r.Some? <==> |ws| == |BranchMethods()[k].params|
    ensures r.Some? ==> MethodName(r.value) == BranchMethods()[k].name && Args(r.value) == ws
  {
    match k
    case 0 => if |ws| == 2 then Some(ListBranches(ws[0], ws[1])) else None
    case 1 => if |ws| == 3 then Some(GetBranch(ws[0], ws[1], ws[2])) else None
    case 2 => if |ws| == 4 then Some(CreateBranch(ws[0], ws[1], ws[2], ws[3])) else None
    case _ => if |ws| == 3 then Some(DeleteBranch(ws[0], ws[1], ws[2])) else None
  }

  /** `Make` for the commit operations */
  function MakeCommit(k: nat, ws: seq<Json>): (r: Option<Call>)
    requires k < |CommitMethods()|
    ensures r.Some? <==> |ws| == |CommitMethods()[k].params|
    ensures r.Some? ==> MethodName(r.value) == CommitMethods()[k].name && Args(r.value) == ws
  {
    match k
    case 0 => if |ws| == 3 then Some(ListCommits(ws[0], ws[1], ws[2])) else None
    case 1 => if |ws| == 3 then Some(GetCommit(ws[0], ws[1], ws[2])) else None
    case _ => if |ws| == 3 then Some(GetCommitDiff(ws[0], ws[1], ws[2])) else None
  }

  /** `Make` for the issue operations */
  function MakeIssue(k: nat, ws: seq<Json>): (r: Option<Call>)
    requires k < |IssueMethods()|
    ensures r.Some? <==> |ws| == |IssueMethods()[k].params|
    ensures r.Some? ==> MethodName(r.value) == IssueMethods()[k].name && Args(r.value) == ws
  {
    match k
    case 0 => if |ws| == 3 then Some(ListIssues(ws[0], ws[1], ws[2])) else None
    case 1 => if |ws| == 3 then Some(GetIssue(ws[0], ws[1], ws[2])) else None
    case 2 => if |ws| == 6 then Some(CreateIssue(ws[0], ws[1], ws[2], ws[3], ws[4], ws[5])) else None
    case _ => if |ws| == 8 then Some(UpdateIssue(ws[0], ws[1], ws[2], ws[3], ws[4], ws[5], ws[6], ws[7])) else None
  }

  /** `Make` for the workspace operations */
  function MakeWorkspace(k: nat, ws: seq<Json>): (r: Option<Call>)
    requires k < |WorkspaceMethods()|
    ensures r.Some? <==> |ws| == |WorkspaceMethods()[k].params|
    ensures r.Some? ==> MethodName(r.value) == WorkspaceMethods()[k].name && Args(r.value) == ws
  {
    match k
    case 0 => if |ws| == 0 then Some(ListWorkspaces) else None
    case _ => if |ws| == 1 then Some(GetWorkspace(ws[0])) else None
  }

  /** `getattr(client, name)(*vs)`: the values bind to the parameters in
      order and the parameters after them take their defaults; None where
      Python raises (an unknown method, or values the signature cannot take) */
  function Invoke(name: string, vs: seq<Json>): (r: Option<Call>)
    ensures r.Some? <==> Signature(name).Some? && Positional(Signature(name).value, vs).Some?
    ensures r.Some? ==> MethodName(r.value) == name && Args(r.value) == Positional(Signature(name).value, vs).value
  {
    match Position(MethodNames(), name)
    case None => None
    case Some(k) =>
      match Positional(Methods()[k].params, vs)
      case None => None
      case Some(ws) => Make(k, ws)
  }

  // ---------------------------------------------------------- body builders

  /** The repository creation body: the `git` SCM and the privacy flag
      always; the description and the project (`{"key": project_key}`) only
      when truthy */
  function CreateRepositoryBody(isPrivate: Json, description: Json, projectKey: Json): (ms: Members)
    ensures Get(ms, "scm") == Some(JStr("git"))
    ensures Get(ms, "is_private") == Some(isPrivate)
    ensures Get(ms, "description") == if Truthy(description) then Some(description) else None
    ensures Get(ms, "project") == if Truthy(projectKey) then Some(Single("key", projectKey)) else None
    ensures forall m :: m in ms ==>
      m.0 == "scm" || m.0 == "is_private" || (m.0 == "description" && Truthy(description)) || (m.0 == "project" && Truthy(projectKey))
  {
    var ks := ["scm", "is_private", "description", "project"];
    var vs := [JStr("git"), isPrivate, description, Single("key", projectKey)];
    var ps := [true, true, Truthy(description), Truthy(projectKey)];
    assert Distinct(ks);
    ObjectGet(ks, vs, ps, 0);
    ObjectGet(ks, vs, ps, 1);
    ObjectGet(ks, vs, ps, 2);
    ObjectGet(ks, vs, ps, 3);
    ObjectOfFourHoldsOnlyPresent(ks, vs, ps);
    Object(ks, vs, ps)
  }

  /** `{"branch": {"name": name}}` */
  function BranchRef(name: Json): (j: Json)
    ensures j.JObj? && Get(j.members, "branch") == Some(Single("name", name))
  {
    Single("branch", Single("name", name))
  }

  /** The pull request creation body: title, source and destination branch
      and the close flag always; the description only when truthy */
  function CreatePullRequestBody(title: Json, source: Json, destination: Json, description: Json,
                                 closeSourceBranch: Json): (ms: Members)
    ensures Get(ms, "title") == Some(title)
    ensures Get(ms, "source") == Some(BranchRef(source))
    ensures Get(ms, "destination") == Some(BranchRef(destination))
    ensures Get(ms, "close_source_branch") == Some(closeSourceBranch)
    ensures Get(ms, "description") == if Truthy(description) then Some(description) else None
    ensures forall m :: m in ms ==>
      || m.0 == "title" || m.0 == "source" || m.0 == "destination" || m.0 == "close_source_branch"
      || (m.0 == "description" && Truthy(description))
  {
    var ks := ["title", "source", "destination", "close_source_branch", "description"];
    var vs := [title, BranchRef(source), BranchRef(destination), closeSourceBranch, description];
    var ps := [true, true, true, true, Truthy(description)];
    assert Distinct(ks);
    ObjectGet(ks, vs, ps, 0);
    ObjectGet(ks, vs, ps, 1);
    ObjectGet(ks, vs, ps, 2);
    ObjectGet(ks, vs, ps, 3);
    ObjectGet(ks, vs, ps, 4);
    ObjectOfFiveHoldsOnlyPresent(ks, vs, ps);
    Object(ks, vs, ps)
  }

  /** The pull request update body: title and description, each only when truthy */
  function UpdatePullRequestBody(title: Json, description: Json): (ms: Members)
    ensures Get(ms, "title") == if Truthy(title) then Some(title) else None
    ensures Get(ms, "description") == if Truthy(description) then Some(description) else None
    ensures forall m :: m in ms ==> (m.0 == "title" && Truthy(title)) || (m.0 == "description" && Truthy(description))
  {
    var ks := ["title", "description"];
    var vs := [title, description];
    var ps := [Truthy(title), Truthy(description)];
    assert Distinct(ks);
    ObjectGet(ks, vs, ps, 0);
    ObjectGet(ks, vs, ps, 1);
    ObjectHoldsOnlyPresent(ks, vs, ps);
    Object(ks, vs, ps)
  }

  /** The merge body: the strategy as `type` always, the message when truthy */
  function MergeBody(strategy: Json, message: Json): (ms: Members)
    ensures Get(ms, "type") == Some(strategy)
    ensures Get(ms, "message") == if Truthy(message) then Some(message) else None
    ensures forall m :: m in ms ==> m.0 == "type" || (m.0 == "message" && Truthy(message))
  {
    var ks := ["type", "message"];
    var vs := [strategy, message];
    var ps := [true, Truthy(message)];
    assert Distinct(ks);
    ObjectGet(ks, vs, ps, 0);
    ObjectGet(ks, vs, ps, 1);
    ObjectHoldsOnlyPresent(ks, vs, ps);
    Object(ks, vs, ps)
  }

  /** The branch creation body: the name and `{"hash": target}` */
  function CreateBranchBody(name: Json, target: Json): (ms: Members)
    ensures Get(ms, "name") == Some(name)
    ensures Get(ms, "target") == Some(Single("hash", target))
    ensures Keys(ms) == ["name", "target"]
  {
    var ks := ["name", "target"];
    var vs := [name, Single("hash", target)];
    var ps := [true, true];
    assert Distinct(ks);
    ObjectGet(ks, vs, ps, 0);
    ObjectGet(ks, vs, ps, 1);
    ObjectKeys(ks, vs, ps);
    Object(ks, vs, ps)
  }

  /** The issue creation body: title, kind and priority always; the
      description, as `{"raw": description}` under `content`, when truthy */
  function CreateIssueBody(title: Json, description: Json, kind: Json, priority: Json): (ms: Members)
    ensures Get(ms, "title") == Some(title)
    ensures Get(ms, "kind") == Some(kind)
    ensures Get(ms, "priority") == Some(priority)
    ensures Get(ms, "content") == if Truthy(description) then Some(Single("raw", description)) else None
    ensures forall m :: m in ms ==>
      m.0 == "title" || m.0 == "kind" || m.0 == "priority" || (m.0 == "content" && Truthy(description))
  {
    var ks := ["title", "kind", "priority", "content"];
    var vs := [title, kind, priority, Single("raw", description)];
    var ps := [true, true, true, Truthy(description)];
    assert Distinct(ks);
    ObjectGet(ks, vs, ps, 0);
    ObjectGet(ks, vs, ps, 1);
    ObjectGet(ks, vs, ps, 2);
    ObjectGet(ks, vs, ps, 3);
    ObjectOfFourHoldsOnlyPresent(ks, vs, ps);
    Object(ks, vs, ps)
  }

  /** The issue update body: every field only when truthy, the description
      as `{"raw": description}` under `content` */
  function UpdateIssueBody(title: Json, description: Json, state: Json, kind: Json, priority: Json): (ms: Members)
    ensures Get(ms, "title") == if Truthy(title) then Some(title) else None
    ensures Get(ms, "content") == if Truthy(description) then Some(Single("raw", description)) else None
    ensures Get(ms, "state") == if Truthy(state) then Some(state) else None
    ensures Get(ms, "kind") == if Truthy(kind) then Some(kind) else None
    ensures Get(ms, "priority") == if Truthy(priority) then Some(priority) else None
    ensures forall m :: m in ms ==>
      || (m.0 == "title" && Truthy(title)) || (m.0 == "content" && Truthy(description))
      || (m.0 == "state" && Truthy(state)) || (m.0 == "kind" && Truthy(kind)) || (m.0 == "priority" && Truthy(priority))
  {
    var ks := ["title", "content", "state", "kind", "priority"];
    var vs := [title, Single("raw", description), state, kind, priority];
    var ps := [Truthy(title), Truthy(description), Truthy(state), Truthy(kind), Truthy(priority)];
    assert Distinct(ks);
    ObjectGet(ks, vs, ps, 0);
    ObjectGet(ks, vs, ps, 1);
    ObjectGet(ks, vs, ps, 2);
    ObjectGet(ks, vs, ps, 3);
    ObjectGet(ks, vs, ps, 4);
    ObjectOfFiveHoldsOnlyPresent(ks, vs, ps);
    Object(ks, vs, ps)
  }

  /** Updates given nothing to change send an empty object */
  lemma UpdatesWithNothing()
    ensures UpdatePullRequestBody(JNull, JNull) == []
    ensures UpdateIssueBody(JNull, JNull, JNull, JNull, JNull) == []
  {
    ObjectEmpty(["title", "description"], [JNull, JNull], [false, false]);
    ObjectEmpty(["title", "content", "state", "kind", "priority"],
                [JNull, Single("raw", JNull), JNull, JNull, JNull], [false, false, false, false, false]);
  }

  /** `{"state": state} if state else {}` */
  function StateFilter(state: Json): (ms: Members)
    ensures Truthy(state) ==> Get(ms, "state") == Some(state) && |ms| == 1
    ensures !Truthy(state) ==> ms == []
  {
    if Truthy(state) then [("state", state)] else []
  }

  // --------------------------------------------------------------- requests

  /** The commit listing URL, narrowed to a branch when one is given */
  function CommitsUrl(workspace: Json, repoSlug: Json, branch: Json): (url: string)
    ensures Truthy(branch) ==> url == Repo(workspace, repoSlug, "/commits") + "/" + Str(branch)
    ensures !Truthy(branch) ==> url == Repo(workspace, repoSlug, "/commits")
    ensures BaseUrl <= url
  {
    var url := Repo(workspace, repoSlug, "/commits");
    if Truthy(branch) then url + "/" + Str(branch) else url
  }

  /** The request a call sends */
  function RequestOf(call: Call): (r: Request)
    ensures BaseUrl <= r.url
  {
    match call
    case GetRepository(w, r) => Fetch(Repo(w, r, ""))
    case ListRepositories(w) => Fetch(Endpoint("/repositories/" + Str(w)))
    case CreateRepository(w, r, p, d, k) => Send(POST, Repo(w, r, ""), CreateRepositoryBody(p, d, k))
    case SearchCode(w, r, q) => Request(GET, Repo(w, r, "/search/code"), [("search_query", q)], None)
    case ListPullRequests(w, r, s) => Request(GET, Repo(w, r, "/pullrequests"), StateFilter(s), None)
    case GetPullRequest(w, r, id) => Fetch(PullRequest(w, r, id, ""))
    case CreatePullRequest(w, r, t, s, d, desc, close) =>
      Send(POST, Repo(w, r, "/pullrequests"), CreatePullRequestBody(t, s, d, desc, close))
    case UpdatePullRequest(w, r, id, t, d) => Send(PUT, PullRequest(w, r, id, ""), UpdatePullRequestBody(t, d))
    case MergePullRequest(w, r, id, s, m) => Send(POST, PullRequest(w, r, id, "/merge"), MergeBody(s, m))
    case DeclinePullRequest(w, r, id) => Request(POST, PullRequest(w, r, id, "/decline"), [], None)
    case ApprovePullRequest(w, r, id) => Request(POST, PullRequest(w, r, id, "/approve"), [], None)
    case UnapprovePullRequest(w, r, id) => Remove(PullRequest(w, r, id, "/approve"))
    case ListPrComments(w, r, id) => Fetch(PullRequest(w, r, id, "/comments"))
    case AddPrComment(w, r, id, c) => Send(POST, PullRequest(w, r, id, "/comments"), [("content", Single("raw", c))])
    case ListBranches(w, r) => Fetch(Repo(w, r, "/refs/branches"))
    case GetBranch(w, r, b) => Fetch(Repo(w, r, "/refs/branches/" + Str(b)))
    case CreateBranch(w, r, b, t) => Send(POST, Repo(w, r, "/refs/branches"), CreateBranchBody(b, t))
    case DeleteBranch(w, r, b) => Remove(Repo(w, r, "/refs/branches/" + Str(b)))
    case ListCommits(w, r, b) => Fetch(CommitsUrl(w, r, b))
    case GetCommit(w, r, h) => Fetch(Repo(w, r, "/commit/" + Str(h)))
    case GetCommitDiff(w, r, h) => Fetch(Repo(w, r, "/diff/" + Str(h)))
    case ListIssues(w, r, s) => Request(GET, Repo(w, r, "/issues"), StateFilter(s), None)
    case GetIssue(w, r, id) => Fetch(Repo(w, r, "/issues/" + Str(id)))
    case CreateIssue(w, r, t, d, k, p) => Send(POST, Repo(w, r, "/issues"), CreateIssueBody(t, d, k, p))
    case UpdateIssue(w, r, id, t, d, s, k, p) =>
      Send(PUT, Repo(w, r, "/issues/" + Str(id)), UpdateIssueBody(t, d, s, k, p))
    case ListWorkspaces => Fetch(Endpoint("/workspaces"))
    case GetWorkspace(w) => Fetch(Endpoint("/workspaces/" + Str(w)))
  }

  /** Listing a workspace's repositories addresses `/repositories/{workspace}` */
  lemma RepositoryListingPath(workspace: Json)
    ensures RequestOf(ListRepositories(workspace)).url == BaseUrl + "/repositories/" + Str(workspace)
  {
  }

  /** The workspace calls address `/workspaces` and `/workspaces/{workspace}` */
  lemma WorkspacePaths(call: Call)
    ensures call.ListWorkspaces? ==> RequestOf(call).url == BaseUrl + "/workspaces"
    ensures call.GetWorkspace? ==> RequestOf(call).url == BaseUrl + "/workspaces/" + Str(call.workspace)
  {
  }

  /** Every other call names a repository and addresses a resource under
      `/repositories/{workspace}/{repo_slug}`; every call that names a pull
      request addresses one under that pull request */
  lemma ResourcePaths(call: Call)
    ensures !call.ListRepositories? && !call.ListWorkspaces? && !call.GetWorkspace? ==>
      RepoRoot(call.workspace, call.repoSlug) <= RequestOf(call).url
    ensures NamesPullRequest(call) ==> PullRequestRoot(call.workspace, call.repoSlug, call.prId) <= RequestOf(call).url
  {
    if call.ListRepositories? || call.ListWorkspaces? || call.GetWorkspace? {
    } else if call.GetPullRequest? || call.UpdatePullRequest? || call.MergePullRequest? || call.DeclinePullRequest? {
      PullRequestPaths(call);
    } else if NamesPullRequest(call) {
      ReviewPaths(call);
    } else if call.ListBranches? || call.GetBranch? || call.CreateBranch? || call.DeleteBranch? {
      BranchPaths(call);
    } else if call.ListCommits? || call.GetCommit? || call.GetCommitDiff? {
      CommitPaths(call);
    } else {
      RepositoryPaths(call);
    }
  }

  /** Reading, updating, merging and declining a pull request address that pull request */
  lemma PullRequestPaths(call: Call)
    requires call.GetPullRequest? || call.UpdatePullRequest? || call.MergePullRequest? || call.DeclinePullRequest?
    ensures PullRequestRoot(call.workspace, call.repoSlug, call.prId) <= RequestOf(call).url
    ensures RepoRoot(call.workspace, call.repoSlug) <= RequestOf(call).url
  {
    match call
    case GetPullRequest(w, r, id) =>
    case UpdatePullRequest(w, r, id, _, _) =>
    case MergePullRequest(w, r, id, _, _) =>
    case DeclinePullRequest(w, r, id) =>
  }

  /** Approvals and comments address resources under their pull request */
  lemma ReviewPaths(call: Call)
    requires call.ApprovePullRequest? || call.UnapprovePullRequest? || call.ListPrComments? || call.AddPrComment?
    ensures PullRequestRoot(call.workspace, call.repoSlug, call.prId) <= RequestOf(call).url
    ensures RepoRoot(call.workspace, call.repoSlug) <= RequestOf(call).url
  {
    match call
    case ApprovePullRequest(w, r, id) =>
    case UnapprovePullRequest(w, r, id) =>
    case ListPrComments(w, r, id) =>
    case AddPrComment(w, r, id, _) =>
  }

  /** The branch calls address `/refs/branches` of their repository */
  lemma BranchPaths(call: Call)
    requires call.ListBranches? || call.GetBranch? || call.CreateBranch? || call.DeleteBranch?
    ensures RepoRoot(call.workspace, call.repoSlug) <= RequestOf(call).url
  {
    match call
    case ListBranches(w, r) =>
    case GetBranch(w, r, b) =>
    case CreateBranch(w, r, b, _) =>
    case DeleteBranch(w, r, b) =>
  }

  /** The commit calls address the commits, a commit or a diff of their repository */
  lemma CommitPaths(call: Call)
    requires call.ListCommits? || call.GetCommit? || call.GetCommitDiff?
    ensures RepoRoot(call.workspace, call.repoSlug) <= RequestOf(call).url
  {
    match call
    case ListCommits(w, r, b) => PrefixTransitive(RepoRoot(w, r), Repo(w, r, "/commits"), CommitsUrl(w, r, b));
    case GetCommit(w, r, h) =>
    case GetCommitDiff(w, r, h) =>
  }

  /** The remaining repository-scoped calls address their repository or a
      resource under it */
  lemma RepositoryPaths(call: Call)
    requires !call.ListRepositories? && !call.ListWorkspaces? && !call.GetWorkspace?
    requires !NamesPullRequest(call)
    requires !call.ListBranches? && !call.GetBranch? && !call.CreateBranch? && !call.DeleteBranch?
    requires !call.ListCommits? && !call.GetCommit? && !call.GetCommitDiff?
    ensures RepoRoot(call.workspace, call.repoSlug) <= RequestOf(call).url
  {
    match call
    case GetRepository(w, r) =>
    case CreateRepository(w, r, _, _, _) =>
    case SearchCode(w, r, _) =>
    case ListPullRequests(w, r, _) =>
    case CreatePullRequest(w, r, _, _, _, _, _) =>
    case ListIssues(w, r, _) =>
    case GetIssue(w, r, _) =>
    case CreateIssue(w, r, _, _, _, _) =>
    case UpdateIssue(w, r, _, _, _, _, _, _) =>
  }

  /** The calls that address one pull request */
  predicate NamesPullRequest(call: Call) {
    || call.GetPullRequest? || call.UpdatePullRequest? || call.MergePullRequest? || call.DeclinePullRequest?
    || call.ApprovePullRequest? || call.UnapprovePullRequest? || call.ListPrComments? || call.AddPrComment?
  }

  /** A pull request comment is POSTed as `{"content": {"raw": content}}` */
  lemma CommentBody(w: Json, r: Json, id: Json, content: Json)
    ensures RequestOf(AddPrComment(w, r, id, content)).verb == POST
    ensures RequestOf(AddPrComment(w, r, id, content)).body == Some(Single("content", Single("raw", content)))
  {
  }

  /** Only decline and approve POST without a body */
  lemma BodylessPosts(call: Call)
    ensures RequestOf(call).verb == POST && RequestOf(call).body.None?
        <==> call.DeclinePullRequest? || call.ApprovePullRequest?
  {
  }

  /** Query parameters are sent only by the code search and by the two
      listings that filter on a truthy state */
  lemma QueryParameters(call: Call)
    ensures RequestOf(call).params != []
        <==> call.SearchCode? || ((call.ListPullRequests? || call.ListIssues?) && Truthy(call.state))
  {
  }

  /** Approving and withdrawing an approval address the same resource */
  lemma ApprovalResource(w: Json, r: Json, id: Json)
    ensures RequestOf(ApprovePullRequest(w, r, id)).url == RequestOf(UnapprovePullRequest(w, r, id)).url
    ensures RequestOf(ApprovePullRequest(w, r, id)).verb == POST
    ensures RequestOf(UnapprovePullRequest(w, r, id)).verb == DELETE
  {
  }

  // -------------------------------------------------------------- responses

  /** The methods that return a fixed status object instead of the response body */
  predicate Acknowledged(call: Call) {
    call.UnapprovePullRequest? || call.DeleteBranch?
  }

  /** What a method returns for the response to its request: a failed request
      raises; `unapprove_pull_request` and `delete_branch` then return a
      fixed status object, every other method the decoded body */
  function Interpret(call: Call, resp: Response): (r: Result<Json>)
    ensures resp.Failed? ==> r == Err(resp.message)
    ensures resp.Received? && !Acknowledged(call) ==> r == resp.body
    ensures resp.Received? && call.UnapprovePullRequest? ==> r == Ok(Single("status", JStr("approval removed")))
    ensures resp.Received? && call.DeleteBranch? ==> r == Ok(Single("status", JStr("branch deleted")))
  {
    match call
    case UnapprovePullRequest(_, _, _) => Acknowledge(resp, Single("status", JStr("approval removed")))
    case DeleteBranch(_, _, _) => Acknowledge(resp, Single("status", JStr("branch deleted")))
    case _ => JsonBody(resp)
  }

  /** Running a client method against a transport: every method sends
      exactly one request */
  function Run(call: Call, send: Transport): (ex: Exchange)
    ensures ex.sent == [RequestOf(call)] && BaseUrl <= ex.sent[0].url
    ensures ex.result == Interpret(call, send(ex.sent[0]))
  {
    var req := RequestOf(call);
    Exchange([req], Interpret(call, send(req)))
  }

  /** The status objects never depend on what the server answered */
  lemma AcknowledgementIgnoresBody(call: Call, a: Result<Json>, b: Result<Json>)
    requires Acknowledged(call)
    ensures Interpret(call, Received(a)) == Interpret(call, Received(b))
  {
  }
}
