/** The tools of the Bitbucket MCP server as data: the input schema
    `list_tools` announces for each tool, the arguments the matching branch
    of `call_tool` reads, and the client method it passes them to. Each tool
    is checked when it is defined, as for the JIRA server. */
module BitbucketTools {
  import opened Wrappers
  import opened Json
  import opened Signatures
  import opened Tools
  import opened BitbucketClient

  /** The number of tools the server announces and handles */
  const ToolCount := 27

  /** A handler whose branch calls the client method of the same name,
      with arguments that method can take */
  predicate Calls(h: Handler) {
    && h.callee.name == h.tool.branch.name
    && Fits(h.callee.params, h.tool.branch.args)
  }

  /** A Bitbucket tool, checked against its schema and its client method */
  type BitbucketTool = h: Handler | Calls(h)
    witness Handler(Check(Tool(ToolDef("", [], []), Branch("", []))), Method("", []))

  /** `get_repository`: announced at bitbucket-mcp/src/server.py:51-62, dispatched at bitbucket-mcp/src/server.py:453-456 */
  function GetRepositoryTool(): (t: CheckedTool)
    ensures t.schema.name == "get_repository"
  {
    Check(Tool(
      ToolDef("get_repository",
              [Plain("workspace"), Plain("repo_slug")],
              ["workspace", "repo_slug"]),
      Branch("get_repository", [Req("workspace"), Req("repo_slug")])))
  }

  /** The branch of `get_repository` calls the client method of the same name */
  function GetRepositoryHandler(): (h: BitbucketTool)
    ensures h.tool.schema.name == "get_repository"
  {
    Handler(GetRepositoryTool(), GetRepositoryMethod())
  }

  /** `list_repositories`: announced at bitbucket-mcp/src/server.py:63-73, dispatched at bitbucket-mcp/src/server.py:457-458 */
  function ListRepositoriesTool(): (t: CheckedTool)
    ensures t.schema.name == "list_repositories"
  {
    Check(Tool(
      ToolDef("list_repositories",
              [Plain("workspace")],
              ["workspace"]),
      Branch("list_repositories", [Req("workspace")])))
  }

  /** The branch of `list_repositories` calls the client method of the same name */
  function ListRepositoriesHandler(): (h: BitbucketTool)
    ensures h.tool.schema.name == "list_repositories"
  {
    Handler(ListRepositoriesTool(), ListRepositoriesMethod())
  }

  /** `create_repository`: announced at bitbucket-mcp/src/server.py:74-88, dispatched at bitbucket-mcp/src/server.py:459-466 */
  function CreateRepositoryTool(): (t: CheckedTool)
    ensures t.schema.name == "create_repository"
  {
    Check(Tool(
      ToolDef("create_repository",
              [Plain("workspace"), Plain("repo_slug"),
               Property("is_private", [], Some(JBool(true))), Plain("description"),
               Plain("project_key")],
              ["workspace", "repo_slug"]),
      Branch("create_repository", [Req("workspace"), Req("repo_slug"),
                                   Opt("is_private", JBool(true)), Opt("description", JNull),
                                   Opt("project_key", JNull)])))
  }

  /** The branch of `create_repository` calls the client method of the same name */
  function CreateRepositoryHandler(): (h: BitbucketTool)
    ensures h.tool.schema.name == "create_repository"
  {
    Handler(CreateRepositoryTool(), CreateRepositoryMethod())
  }

  /** `search_code`: announced at bitbucket-mcp/src/server.py:89-101, dispatched at bitbucket-mcp/src/server.py:467-470 */
  function SearchCodeTool(): (t: CheckedTool)
    ensures t.schema.name == "search_code"
  {
    Check(Tool(
      ToolDef("search_code",
              [Plain("workspace"), Plain("repo_slug"), Plain("search_query")],
              ["workspace", "repo_slug", "search_query"]),
      Branch("search_code", [Req("workspace"), Req("repo_slug"), Req("search_query")])))
  }

  /** The branch of `search_code` calls the client method of the same name */
  function SearchCodeHandler(): (h: BitbucketTool)
    ensures h.tool.schema.name == "search_code"
  {
    Handler(SearchCodeTool(), SearchCodeMethod())
  }

  /** `list_pull_requests`: announced at bitbucket-mcp/src/server.py:104-120, dispatched at bitbucket-mcp/src/server.py:473-476 */
  function ListPullRequestsTool(): (t: CheckedTool)
    ensures t.schema.name == "list_pull_requests"
  {
    Check(Tool(
      ToolDef("list_pull_requests",
              [Plain("workspace"), Plain("repo_slug"),
               Property("state", ["OPEN", "MERGED", "DECLINED"], None)],
              ["workspace", "repo_slug"]),
      Branch("list_pull_requests", [Req("workspace"), Req("repo_slug"), Opt("state", JNull)])))
  }

  /** The branch of `list_pull_requests` calls the client method of the same name */
  function ListPullRequestsHandler(): (h: BitbucketTool)
    ensures h.tool.schema.name == "list_pull_requests"
  {
    Handler(ListPullRequestsTool(), ListPullRequestsMethod())
  }

  /** `get_pull_request`: announced at bitbucket-mcp/src/server.py:121-133, dispatched at bitbucket-mcp/src/server.py:477-480 */
  function GetPullRequestTool(): (t: CheckedTool)
    ensures t.schema.name == "get_pull_request"
  {
    Check(Tool(
      ToolDef("get_pull_request",
              [Plain("workspace"), Plain("repo_slug"), Plain("pr_id")],
              ["workspace", "repo_slug", "pr_id"]),
      Branch("get_pull_request", [Req("workspace"), Req("repo_slug"), Req("pr_id")])))
  }

  /** The branch of `get_pull_request` calls the client method of the same name */
  function GetPullRequestHandler(): (h: BitbucketTool)
    ensures h.tool.schema.name == "get_pull_request"
  {
    Handler(GetPullRequestTool(), GetPullRequestMethod())
  }

  /** `create_pull_request`: announced at bitbucket-mcp/src/server.py:134-150, dispatched at bitbucket-mcp/src/server.py:481-490 */
  function CreatePullRequestTool(): (t: CheckedTool)
    ensures t.schema.name == "create_pull_request"
  {
    Check(Tool(
      ToolDef("create_pull_request",
              [Plain("workspace"), Plain("repo_slug"), Plain("title"), Plain("source_branch"),
               Plain("destination_branch"), Plain("description"),
               Property("close_source_branch", [], Some(JBool(false)))],
              ["workspace", "repo_slug", "title", "source_branch", "destination_branch"]),
      Branch("create_pull_request", [Req("workspace"), Req("repo_slug"), Req("title"),
                                     Req("source_branch"), Req("destination_branch"),
                                     Opt("description", JNull),
                                     Opt("close_source_branch", JBool(false))])))
  }

  /** The branch of `create_pull_request` calls the client method of the same name */
  function CreatePullRequestHandler(): (h: BitbucketTool)
    ensures h.tool.schema.name == "create_pull_request"
  {
    Handler(CreatePullRequestTool(), CreatePullRequestMethod())
  }

  /** `update_pull_request`: announced at bitbucket-mcp/src/server.py:151-165, dispatched at bitbucket-mcp/src/server.py:491-498 */
  function UpdatePullRequestTool(): (t: CheckedTool)
    ensures t.schema.name == "update_pull_request"
  {
    Check(Tool(
      ToolDef("update_pull_request",
              [Plain("workspace"), Plain("repo_slug"), Plain("pr_id"), Plain("title"),
               Plain("description")],
              ["workspace", "repo_slug", "pr_id"]),
      Branch("update_pull_request", [Req("workspace"), Req("repo_slug"), Req("pr_id"),
                                     Opt("title", JNull), Opt("description", JNull)])))
  }

  /** The branch of `update_pull_request` calls the client method of the same name */
  function UpdatePullRequestHandler(): (h: BitbucketTool)
    ensures h.tool.schema.name == "update_pull_request"
  {
    Handler(UpdatePullRequestTool(), UpdatePullRequestMethod())
  }

  /** `merge_pull_request`: announced at bitbucket-mcp/src/server.py:166-185, dispatched at bitbucket-mcp/src/server.py:499-506 */
  function MergePullRequestTool(): (t: CheckedTool)
    ensures t.schema.name == "merge_pull_request"
  {
    Check(Tool(
      ToolDef("merge_pull_request",
              [Plain("workspace"), Plain("repo_slug"), Plain("pr_id"),
               Property("merge_strategy", ["merge_commit", "squash", "fast_forward"], Some(JStr("merge_commit"))),
               Plain("message")],
              ["workspace", "repo_slug", "pr_id"]),
      Branch("merge_pull_request", [Req("workspace"), Req("repo_slug"), Req("pr_id"),
                                    Opt("merge_strategy", JStr("merge_commit")),
                                    Opt("message", JNull)])))
  }

  /** The branch of `merge_pull_request` calls the client method of the same name */
  function MergePullRequestHandler(): (h: BitbucketTool)
    ensures h.tool.schema.name == "merge_pull_request"
  {
    Handler(MergePullRequestTool(), MergePullRequestMethod())
  }

  /** `decline_pull_request`: announced at bitbucket-mcp/src/server.py:186-198, dispatched at bitbucket-mcp/src/server.py:507-510 */
  function DeclinePullRequestTool(): (t: CheckedTool)
    ensures t.schema.name == "decline_pull_request"
  {
    Check(Tool(
      ToolDef("decline_pull_request",
              [Plain("workspace"), Plain("repo_slug"), Plain("pr_id")],
              ["workspace", "repo_slug", "pr_id"]),
      Branch("decline_pull_request", [Req("workspace"), Req("repo_slug"), Req("pr_id")])))
  }

  /** The branch of `decline_pull_request` calls the client method of the same name */
  function DeclinePullRequestHandler(): (h: BitbucketTool)
    ensures h.tool.schema.name == "decline_pull_request"
  {
    Handler(DeclinePullRequestTool(), DeclinePullRequestMethod())
  }

  /** `approve_pull_request`: announced at bitbucket-mcp/src/server.py:199-211, dispatched at bitbucket-mcp/src/server.py:511-514 */
  function ApprovePullRequestTool(): (t: CheckedTool)
    ensures t.schema.name == "approve_pull_request"
  {
    Check(Tool(
      ToolDef("approve_pull_request",
              [Plain("workspace"), Plain("repo_slug"), Plain("pr_id")],
              ["workspace", "repo_slug", "pr_id"]),
      Branch("approve_pull_request", [Req("workspace"), Req("repo_slug"), Req("pr_id")])))
  }

  /** The branch of `approve_pull_request` calls the client method of the same name */
  function ApprovePullRequestHandler(): (h: BitbucketTool)
    ensures h.tool.schema.name == "approve_pull_request"
  {
    Handler(ApprovePullRequestTool(), ApprovePullRequestMethod())
  }

  /** `unapprove_pull_request`: announced at bitbucket-mcp/src/server.py:212-224, dispatched at bitbucket-mcp/src/server.py:515-518 */
  function UnapprovePullRequestTool(): (t: CheckedTool)
    ensures t.schema.name == "unapprove_pull_request"
  {
    Check(Tool(
      ToolDef("unapprove_pull_request",
              [Plain("workspace"), Plain("repo_slug"), Plain("pr_id")],
              ["workspace", "repo_slug", "pr_id"]),
      Branch("unapprove_pull_request", [Req("workspace"), Req("repo_slug"), Req("pr_id")])))
  }

  /** The branch of `unapprove_pull_request` calls the client method of the same name */
  function UnapprovePullRequestHandler(): (h: BitbucketTool)
    ensures h.tool.schema.name == "unapprove_pull_request"
  {
    Handler(UnapprovePullRequestTool(), UnapprovePullRequestMethod())
  }

  /** `list_pr_comments`: announced at bitbucket-mcp/src/server.py:225-237, dispatched at bitbucket-mcp/src/server.py:519-522 */
  function ListPrCommentsTool(): (t: CheckedTool)
    ensures t.schema.name == "list_pr_comments"
  {
    Check(Tool(
      ToolDef("list_pr_comments",
              [Plain("workspace"), Plain("repo_slug"), Plain("pr_id")],
              ["workspace", "repo_slug", "pr_id"]),
      Branch("list_pr_comments", [Req("workspace"), Req("repo_slug"), Req("pr_id")])))
  }

  /** The branch of `list_pr_comments` calls the client method of the same name */
  function ListPrCommentsHandler(): (h: BitbucketTool)
    ensures h.tool.schema.name == "list_pr_comments"
  {
    Handler(ListPrCommentsTool(), ListPrCommentsMethod())
  }

  /** `add_pr_comment`: announced at bitbucket-mcp/src/server.py:238-251, dispatched at bitbucket-mcp/src/server.py:523-526 */
  function AddPrCommentTool(): (t: CheckedTool)
    ensures t.schema.name == "add_pr_comment"
  {
    Check(Tool(
      ToolDef("add_pr_comment",
              [Plain("workspace"), Plain("repo_slug"), Plain("pr_id"), Plain("content")],
              ["workspace", "repo_slug", "pr_id", "content"]),
      Branch("add_pr_comment", [Req("workspace"), Req("repo_slug"), Req("pr_id"), Req("content")])))
  }

  /** The branch of `add_pr_comment` calls the client method of the same name */
  function AddPrCommentHandler(): (h: BitbucketTool)
    ensures h.tool.schema.name == "add_pr_comment"
  {
    Handler(AddPrCommentTool(), AddPrCommentMethod())
  }

  /** `list_branches`: announced at bitbucket-mcp/src/server.py:254-265, dispatched at bitbucket-mcp/src/server.py:529-532 */
  function ListBranchesTool(): (t: CheckedTool)
    ensures t.schema.name == "list_branches"
  {
    Check(Tool(
      ToolDef("list_branches",
              [Plain("workspace"), Plain("repo_slug")],
              ["workspace", "repo_slug"]),
      Branch("list_branches", [Req("workspace"), Req("repo_slug")])))
  }

  /** The branch of `list_branches` calls the client method of the same name */
  function ListBranchesHandler(): (h: BitbucketTool)
    ensures h.tool.schema.name == "list_branches"
  {
    Handler(ListBranchesTool(), ListBranchesMethod())
  }

  /** `get_branch`: announced at bitbucket-mcp/src/server.py:266-278, dispatched at bitbucket-mcp/src/server.py:533-536 */
  function GetBranchTool(): (t: CheckedTool)
    ensures t.schema.name == "get_branch"
  {
    Check(Tool(
      ToolDef("get_branch",
              [Plain("workspace"), Plain("repo_slug"), Plain("branch_name")],
              ["workspace", "repo_slug", "branch_name"]),
      Branch("get_branch", [Req("workspace"), Req("repo_slug"), Req("branch_name")])))
  }

  /** The branch of `get_branch` calls the client method of the same name */
  function GetBranchHandler(): (h: BitbucketTool)
    ensures h.tool.schema.name == "get_branch"
  {
    Handler(GetBranchTool(), GetBranchMethod())
  }

  /** `create_branch`: announced at bitbucket-mcp/src/server.py:279-292, dispatched at bitbucket-mcp/src/server.py:537-540 */
  function CreateBranchTool(): (t: CheckedTool)
    ensures t.schema.name == "create_branch"
  {
    Check(Tool(
      ToolDef("create_branch",
              [Plain("workspace"), Plain("repo_slug"), Plain("branch_name"), Plain("target")],
              ["workspace", "repo_slug", "branch_name", "target"]),
      Branch("create_branch", [Req("workspace"), Req("repo_slug"), Req("branch_name"),
                               Req("target")])))
  }

  /** The branch of `create_branch` calls the client method of the same name */
  function CreateBranchHandler(): (h: BitbucketTool)
    ensures h.tool.schema.name == "create_branch"
  {
    Handler(CreateBranchTool(), CreateBranchMethod())
  }

  /** `delete_branch`: announced at bitbucket-mcp/src/server.py:293-305, dispatched at bitbucket-mcp/src/server.py:541-544 */
  function DeleteBranchTool(): (t: CheckedTool)
    ensures t.schema.name == "delete_branch"
  {
    Check(Tool(
      ToolDef("delete_branch",
              [Plain("workspace"), Plain("repo_slug"), Plain("branch_name")],
              ["workspace", "repo_slug", "branch_name"]),
      Branch("delete_branch", [Req("workspace"), Req("repo_slug"), Req("branch_name")])))
  }

  /** The branch of `delete_branch` calls the client method of the same name */
  function DeleteBranchHandler(): (h: BitbucketTool)
    ensures h.tool.schema.name == "delete_branch"
  {
    Handler(DeleteBranchTool(), DeleteBranchMethod())
  }

  /** `list_commits`: announced at bitbucket-mcp/src/server.py:308-320, dispatched at bitbucket-mcp/src/server.py:547-550 */
  function ListCommitsTool(): (t: CheckedTool)
    ensures t.schema.name == "list_commits"
  {
    Check(Tool(
      ToolDef("list_commits",
              [Plain("workspace"), Plain("repo_slug"), Plain("branch")],
              ["workspace", "repo_slug"]),
      Branch("list_commits", [Req("workspace"), Req("repo_slug"), Opt("branch", JNull)])))
  }

  /** The branch of `list_commits` calls the client method of the same name */
  function ListCommitsHandler(): (h: BitbucketTool)
    ensures h.tool.schema.name == "list_commits"
  {
    Handler(ListCommitsTool(), ListCommitsMethod())
  }

  /** `get_commit`: announced at bitbucket-mcp/src/server.py:321-333, dispatched at bitbucket-mcp/src/server.py:551-554 */
  function GetCommitTool(): (t: CheckedTool)
    ensures t.schema.name == "get_commit"
  {
    Check(Tool(
      ToolDef("get_commit",
              [Plain("workspace"), Plain("repo_slug"), Plain("commit_hash")],
              ["workspace", "repo_slug", "commit_hash"]),
      Branch("get_commit", [Req("workspace"), Req("repo_slug"), Req("commit_hash")])))
  }

  /** The branch of `get_commit` calls the client method of the same name */
  function GetCommitHandler(): (h: BitbucketTool)
    ensures h.tool.schema.name == "get_commit"
  {
    Handler(GetCommitTool(), GetCommitMethod())
  }

  /** `get_commit_diff`: announced at bitbucket-mcp/src/server.py:334-346, dispatched at bitbucket-mcp/src/server.py:555-558 */
  function GetCommitDiffTool(): (t: CheckedTool)
    ensures t.schema.name == "get_commit_diff"
  {
    Check(Tool(
      ToolDef("get_commit_diff",
              [Plain("workspace"), Plain("repo_slug"), Plain("commit_hash")],
              ["workspace", "repo_slug", "commit_hash"]),
      Branch("get_commit_diff", [Req("workspace"), Req("repo_slug"), Req("commit_hash")])))
  }

  /** The branch of `get_commit_diff` calls the client method of the same name */
  function GetCommitDiffHandler(): (h: BitbucketTool)
    ensures h.tool.schema.name == "get_commit_diff"
  {
    Handler(GetCommitDiffTool(), GetCommitDiffMethod())
  }

  /** `list_issues`: announced at bitbucket-mcp/src/server.py:349-365, dispatched at bitbucket-mcp/src/server.py:561-564 */
  function ListIssuesTool(): (t: CheckedTool)
    ensures t.schema.name == "list_issues"
  {
    Check(Tool(
      ToolDef("list_issues",
              [Plain("workspace"), Plain("repo_slug"),
               Property("state", ["new", "open", "resolved", "on hold", "invalid", "duplicate", "wontfix", "closed"], None)],
              ["workspace", "repo_slug"]),
      Branch("list_issues", [Req("workspace"), Req("repo_slug"), Opt("state", JNull)])))
  }

  /** The branch of `list_issues` calls the client method of the same name */
  function ListIssuesHandler(): (h: BitbucketTool)
    ensures h.tool.schema.name == "list_issues"
  {
    Handler(ListIssuesTool(), ListIssuesMethod())
  }

  /** `get_issue`: announced at bitbucket-mcp/src/server.py:366-378, dispatched at bitbucket-mcp/src/server.py:565-568 */
  function GetIssueTool(): (t: CheckedTool)
    ensures t.schema.name == "get_issue"
  {
    Check(Tool(
      ToolDef("get_issue",
              [Plain("workspace"), Plain("repo_slug"), Plain("issue_id")],
              ["workspace", "repo_slug", "issue_id"]),
      Branch("get_issue", [Req("workspace"), Req("repo_slug"), Req("issue_id")])))
  }

  /** The branch of `get_issue` calls the client method of the same name */
  function GetIssueHandler(): (h: BitbucketTool)
    ensures h.tool.schema.name == "get_issue"
  {
    Handler(GetIssueTool(), GetIssueMethod())
  }

  /** `create_issue`: announced at bitbucket-mcp/src/server.py:379-404, dispatched at bitbucket-mcp/src/server.py:569-577 */
  function CreateIssueTool(): (t: CheckedTool)
    ensures t.schema.name == "create_issue"
  {
    Check(Tool(
      ToolDef("create_issue",
              [Plain("workspace"), Plain("repo_slug"), Plain("title"), Plain("description"),
               Property("kind", ["bug", "enhancement", "proposal", "task"], Some(JStr("bug"))),
               Property("priority", ["trivial", "minor", "major", "critical", "blocker"], Some(JStr("major")))],
              ["workspace", "repo_slug", "title"]),
      Branch("create_issue", [Req("workspace"), Req("repo_slug"), Req("title"),
                              Opt("description", JNull), Opt("kind", JStr("bug")),
                              Opt("priority", JStr("major"))])))
  }

  /** The branch of `create_issue` calls the client method of the same name */
  function CreateIssueHandler(): (h: BitbucketTool)
    ensures h.tool.schema.name == "create_issue"
  {
    Handler(CreateIssueTool(), CreateIssueMethod())
  }

  /** `update_issue`: announced at bitbucket-mcp/src/server.py:405-422, dispatched at bitbucket-mcp/src/server.py:578-588 */
  function UpdateIssueTool(): (t: CheckedTool)
    ensures t.schema.name == "update_issue"
  {
    Check(Tool(
      ToolDef("update_issue",
              [Plain("workspace"), Plain("repo_slug"), Plain("issue_id"), Plain("title"),
               Plain("description"), Plain("state"), Plain("kind"), Plain("priority")],
              ["workspace", "repo_slug", "issue_id"]),
      Branch("update_issue", [Req("workspace"), Req("repo_slug"), Req("issue_id"),
                              Opt("title", JNull), Opt("description", JNull), Opt("state", JNull),
                              Opt("kind", JNull), Opt("priority", JNull)])))
  }

  /** The branch of `update_issue` calls the client method of the same name */
  function UpdateIssueHandler(): (h: BitbucketTool)
    ensures h.tool.schema.name == "update_issue"
  {
    Handler(UpdateIssueTool(), UpdateIssueMethod())
  }

  /** `list_workspaces`: announced at bitbucket-mcp/src/server.py:425-432, dispatched at bitbucket-mcp/src/server.py:591-592 */
  function ListWorkspacesTool(): (t: CheckedTool)
    ensures t.schema.name == "list_workspaces"
  {
    Check(Tool(
      ToolDef("list_workspaces",
              [],
              []),
      Branch("list_workspaces", [])))
  }

  /** The branch of `list_workspaces` calls the client method of the same name */
  function ListWorkspacesHandler(): (h: BitbucketTool)
    ensures h.tool.schema.name == "list_workspaces"
  {
    Handler(ListWorkspacesTool(), ListWorkspacesMethod())
  }

  /** `get_workspace`: announced at bitbucket-mcp/src/server.py:433-443, dispatched at bitbucket-mcp/src/server.py:593-594 */
  function GetWorkspaceTool(): (t: CheckedTool)
    ensures t.schema.name == "get_workspace"
  {
    Check(Tool(
      ToolDef("get_workspace",
              [Plain("workspace")],
              ["workspace"]),
      Branch("get_workspace", [Req("workspace")])))
  }

  /** The branch of `get_workspace` calls the client method of the same name */
  function GetWorkspaceHandler(): (h: BitbucketTool)
    ensures h.tool.schema.name == "get_workspace"
  {
    Handler(GetWorkspaceTool(), GetWorkspaceMethod())
  }

  /** The names of the tools `RepositoryTools` lists */
  const RepositoryToolNames: seq<string> :=
    ["get_repository", "list_repositories", "create_repository", "search_code"]

  /** The repository tools (bitbucket-mcp/src/server.py:50-101), in order */
  function RepositoryTools(i: nat): (t: BitbucketTool)
    requires i < 4
    ensures t.tool.schema.name == RepositoryToolNames[i]
  {
    match i
    case 0 => GetRepositoryHandler()
    case 1 => ListRepositoriesHandler()
    case 2 => CreateRepositoryHandler()
    case _ => SearchCodeHandler()
  }

  /** The names of the tools `PullRequestTools` lists */
  const PullRequestToolNames: seq<string> :=
    ["list_pull_requests", "get_pull_request", "create_pull_request", "update_pull_request",
     "merge_pull_request"]

  /** The pull request tools that list, read, open, edit and merge
      (bitbucket-mcp/src/server.py:103-185), in order */
  function PullRequestTools(i: nat): (t: BitbucketTool)
    requires i < 5
    ensures t.tool.schema.name == PullRequestToolNames[i]
  {
    match i
    case 0 => ListPullRequestsHandler()
    case 1 => GetPullRequestHandler()
    case 2 => CreatePullRequestHandler()
    case 3 => UpdatePullRequestHandler()
    case _ => MergePullRequestHandler()
  }

  /** The names of the tools `PullRequestReviewTools` lists */
  const PullRequestReviewToolNames: seq<string> :=
    ["decline_pull_request", "approve_pull_request", "unapprove_pull_request", "list_pr_comments",
     "add_pr_comment"]

  /** The pull request tools that decline, approve and comment
      (bitbucket-mcp/src/server.py:186-251), in order */
  function PullRequestReviewTools(i: nat): (t: BitbucketTool)
    requires i < 5
    ensures t.tool.schema.name == PullRequestReviewToolNames[i]
  {
    match i
    case 0 => DeclinePullRequestHandler()
    case 1 => ApprovePullRequestHandler()
    case 2 => UnapprovePullRequestHandler()
    case 3 => ListPrCommentsHandler()
    case _ => AddPrCommentHandler()
  }

  /** The names of the tools `BranchTools` lists */
  const BranchToolNames: seq<string> :=
    ["list_branches", "get_branch", "create_branch", "delete_branch"]

  /** The branch tools (bitbucket-mcp/src/server.py:253-305), in order */
  function BranchTools(i: nat): (t: BitbucketTool)
    requires i < 4
    ensures t.tool.schema.name == BranchToolNames[i]
  {
    match i
    case 0 => ListBranchesHandler()
    case 1 => GetBranchHandler()
    case 2 => CreateBranchHandler()
    case _ => DeleteBranchHandler()
  }

  /** The names of the tools `CommitTools` lists */
  const CommitToolNames: seq<string> :=
    ["list_commits", "get_commit", "get_commit_diff"]

  /** The commit tools (bitbucket-mcp/src/server.py:307-346), in order */
  function CommitTools(i: nat): (t: BitbucketTool)
    requires i < 3
    ensures t.tool.schema.name == CommitToolNames[i]
  {
    match i
    case 0 => ListCommitsHandler()
    case 1 => GetCommitHandler()
    case _ => GetCommitDiffHandler()
  }

  /** The names of the tools `IssueTools` lists */
  const IssueToolNames: seq<string> :=
    ["list_issues", "get_issue", "create_issue", "update_issue"]

  /** The issue tools (bitbucket-mcp/src/server.py:348-422), in order */
  function IssueTools(i: nat): (t: BitbucketTool)
    requires i < 4
    ensures t.tool.schema.name == IssueToolNames[i]
  {
    match i
    case 0 => ListIssuesHandler()
    case 1 => GetIssueHandler()
    case 2 => CreateIssueHandler()
    case _ => UpdateIssueHandler()
  }

  /** The names of the tools `WorkspaceTools` lists */
  const WorkspaceToolNames: seq<string> :=
    ["list_workspaces", "get_workspace"]

  /** The workspace tools (bitbucket-mcp/src/server.py:424-443), in order */
  function WorkspaceTools(i: nat): (t: BitbucketTool)
    requires i < 2
    ensures t.tool.schema.name == WorkspaceToolNames[i]
  {
    match i
    case 0 => ListWorkspacesHandler()
    case _ => GetWorkspaceHandler()
  }

  /** The tool names in the order `list_tools` announces them */
  const Names: seq<string> :=
    RepositoryToolNames + PullRequestToolNames + PullRequestReviewToolNames + BranchToolNames +
    CommitToolNames + IssueToolNames + WorkspaceToolNames

  /** Where the `i`-th name sits among the sections */
  lemma NamesBySection(i: nat)
    requires i < ToolCount
    ensures i < 4 ==> Names[i] == RepositoryToolNames[i]
    ensures 4 <= i < 9 ==> Names[i] == PullRequestToolNames[i - 4]
    ensures 9 <= i < 14 ==> Names[i] == PullRequestReviewToolNames[i - 9]
    ensures 14 <= i < 18 ==> Names[i] == BranchToolNames[i - 14]
    ensures 18 <= i < 21 ==> Names[i] == CommitToolNames[i - 18]
    ensures 21 <= i < 25 ==> Names[i] == IssueToolNames[i - 21]
    ensures 25 <= i < 27 ==> Names[i] == WorkspaceToolNames[i - 25]
  {
  }

  /** The `i`-th tool: `list_tools` announces the tools in this order and
      `call_tool` tests their names in the same order */
  function ToolAt(i: nat): (t: BitbucketTool)
    requires i < ToolCount
  {
    if i < 4 then RepositoryTools(i)
    else if i < 9 then PullRequestTools(i - 4)
    else if i < 14 then PullRequestReviewTools(i - 9)
    else if i < 18 then BranchTools(i - 14)
    else if i < 21 then CommitTools(i - 18)
    else if i < 25 then IssueTools(i - 21)
    else WorkspaceTools(i - 25)
  }

  /** The schemas `list_tools` announces, in order */
  function Registry(): (ts: seq<ToolDef>)
    ensures |ts| == ToolCount
    ensures forall i :: 0 <= i < ToolCount ==> ts[i] == ToolAt(i).tool.schema
  {
    seq(ToolCount, i requires 0 <= i < ToolCount => ToolAt(i).tool.schema)
  }

  /** The names the branches of `call_tool` test, in order */
  function BranchNames(): (ns: seq<string>)
    ensures |ns| == ToolCount
    ensures forall i :: 0 <= i < ToolCount ==> ns[i] == ToolAt(i).tool.branch.name
  {
    seq(ToolCount, i requires 0 <= i < ToolCount => ToolAt(i).tool.branch.name)
  }

  /** No two tools share a name */
  lemma NamesDistinct()
    ensures Distinct(ToolNames(Registry()))
  {
    NamesApart00(); NamesApart01(); NamesApart02(); NamesApart11(); NamesApart12(); NamesApart22();
    DistinctByFingerprint(Names);
    forall i | 0 <= i < ToolCount
      ensures ToolNames(Registry())[i] == Names[i]
    {
      NameAt(i);
    }
    assert ToolNames(Registry()) == Names;
  }

  /** The `i`-th tool announces the `i`-th name */
  lemma NameAt(i: nat)
    requires i < ToolCount
    ensures ToolAt(i).tool.schema.name == Names[i]
  {
    NamesBySection(i);
  }

  /** Tools 0 to 8 have pairwise different fingerprints */
  lemma NamesApart00()
    ensures forall i, j :: 0 <= i < j < 9 ==> Fingerprint(Names[i]) != Fingerprint(Names[j])
  {
  }

  /** No tool from 0 to 8 shares a fingerprint with one from 9 to 17 */
  lemma NamesApart01()
    ensures forall i, j :: 0 <= i < 9 && 9 <= j < 18 ==> Fingerprint(Names[i]) != Fingerprint(Names[j])
  {
  }

  /** No tool from 0 to 8 shares a fingerprint with one from 18 to 26 */
  lemma NamesApart02()
    ensures forall i, j :: 0 <= i < 9 && 18 <= j < 27 ==> Fingerprint(Names[i]) != Fingerprint(Names[j])
  {
  }

  /** Tools 9 to 17 have pairwise different fingerprints */
  lemma NamesApart11()
    ensures forall i, j :: 9 <= i < j < 18 ==> Fingerprint(Names[i]) != Fingerprint(Names[j])
  {
  }

  /** No tool from 9 to 17 shares a fingerprint with one from 18 to 26 */
  lemma NamesApart12()
    ensures forall i, j :: 9 <= i < 18 && 18 <= j < 27 ==> Fingerprint(Names[i]) != Fingerprint(Names[j])
  {
  }

  /** Tools 18 to 26 have pairwise different fingerprints */
  lemma NamesApart22()
    ensures forall i, j :: 18 <= i < j < 27 ==> Fingerprint(Names[i]) != Fingerprint(Names[j])
  {
  }

  /** Each tool's branch calls the client method at the same position: the
      server lists its tools in the order the client defines its methods */
  lemma CalleeAt(i: nat)
    requires i < ToolCount
    ensures ToolAt(i).callee == Methods()[i]
  {
    if i < 4 { RepositoryCallees(i); }
    else if i < 9 { PullRequestCallees(i); }
    else if i < 14 { PullRequestReviewCallees(i); }
    else if i < 18 { BranchCallees(i); }
    else if i < 21 { CommitCallees(i); }
    else if i < 25 { IssueCallees(i); }
    else { WorkspaceCallees(i); }
  }

  lemma RepositoryCallees(i: nat)
    requires i < 4
    ensures ToolAt(i).callee == Methods()[i]
  {
    MethodInSection(i);
  }

  lemma PullRequestCallees(i: nat)
    requires 4 <= i < 9
    ensures ToolAt(i).callee == Methods()[i]
  {
    MethodInSection(i);
  }

  lemma PullRequestReviewCallees(i: nat)
    requires 9 <= i < 14
    ensures ToolAt(i).callee == Methods()[i]
  {
    MethodInSection(i);
  }

  lemma BranchCallees(i: nat)
    requires 14 <= i < 18
    ensures ToolAt(i).callee == Methods()[i]
  {
    MethodInSection(i);
  }

  lemma CommitCallees(i: nat)
    requires 18 <= i < 21
    ensures ToolAt(i).callee == Methods()[i]
  {
    MethodInSection(i);
  }

  lemma IssueCallees(i: nat)
    requires 21 <= i < 25
    ensures ToolAt(i).callee == Methods()[i]
  {
    MethodInSection(i);
  }

  lemma WorkspaceCallees(i: nat)
    requires 25 <= i < 27
    ensures ToolAt(i).callee == Methods()[i]
  {
    MethodInSection(i);
  }
}
