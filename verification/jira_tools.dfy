/** The tools of the JIRA MCP server as data: the input schema `list_tools`
    announces for each tool, the arguments the matching branch of
    `call_tool` reads, and the client method it passes them to. Each tool is
    checked when it is defined: its branch tests its name, reads exactly
    what its schema declares, and fits its client method's signature. */
module JiraTools {
  import opened Wrappers
  import opened Json
  import opened Signatures
  import opened Tools
  import opened JiraClient

  /** The number of tools the server announces and handles */
  const ToolCount := 21

  /** A handler whose branch calls the client method of the same name,
      with arguments that method can take */
  predicate Calls(h: Handler) {
    && h.callee.name == h.tool.branch.name
    && Fits(h.callee.params, h.tool.branch.args)
  }

  /** A JIRA tool, checked against its schema and its client method */
  type JiraTool = h: Handler | Calls(h)
    witness Handler(Check(Tool(ToolDef("", [], []), Branch("", []))), Method("", []))

  /** `list_projects`: announced at src/server.py:67-74, dispatched at src/server.py:341-342 */
  function ListProjectsTool(): (t: CheckedTool)
    ensures t.schema.name == "list_projects"
  {
    Check(Tool(
      ToolDef("list_projects",
              [],
              []),
      Branch("list_projects", [])))
  }

  /** The branch of `list_projects` calls the client method of the same name */
  function ListProjectsHandler(): (h: JiraTool)
    ensures h.tool.schema.name == "list_projects"
  {
    Handler(ListProjectsTool(), ListProjectsMethod())
  }

  /** `get_project`: announced at src/server.py:75-85, dispatched at src/server.py:343-344 */
  function GetProjectTool(): (t: CheckedTool)
    ensures t.schema.name == "get_project"
  {
    Check(Tool(
      ToolDef("get_project",
              [Plain("project_key")],
              ["project_key"]),
      Branch("get_project", [Req("project_key")])))
  }

  /** The branch of `get_project` calls the client method of the same name */
  function GetProjectHandler(): (h: JiraTool)
    ensures h.tool.schema.name == "get_project"
  {
    Handler(GetProjectTool(), GetProjectMethod())
  }

  /** `create_project`: announced at src/server.py:86-105, dispatched at src/server.py:345-352 */
  function CreateProjectTool(): (t: CheckedTool)
    ensures t.schema.name == "create_project"
  {
    Check(Tool(
      ToolDef("create_project",
              [Plain("key"), Plain("name"),
               Property("project_type_key", ["software", "business", "service_desk"], Some(JStr("software"))),
               Plain("lead_account_id"), Plain("description")],
              ["key", "name"]),
      Branch("create_project", [Req("key"), Req("name"), Opt("project_type_key", JStr("software")),
                                Opt("lead_account_id", JNull), Opt("description", JNull)])))
  }

  /** The branch of `create_project` calls the client method of the same name */
  function CreateProjectHandler(): (h: JiraTool)
    ensures h.tool.schema.name == "create_project"
  {
    Handler(CreateProjectTool(), CreateProjectMethod())
  }

  /** `search_issues`: announced at src/server.py:108-120, dispatched at src/server.py:355-360 */
  function SearchIssuesTool(): (t: CheckedTool)
    ensures t.schema.name == "search_issues"
  {
    Check(Tool(
      ToolDef("search_issues",
              [Plain("jql"), Property("max_results", [], Some(JInt(50))),
               Property("start_at", [], Some(JInt(0)))],
              ["jql"]),
      Branch("search_issues", [Req("jql"), Opt("max_results", JInt(50)),
                               Opt("start_at", JInt(0))])))
  }

  /** The branch of `search_issues` calls the client method of the same name */
  function SearchIssuesHandler(): (h: JiraTool)
    ensures h.tool.schema.name == "search_issues"
  {
    Handler(SearchIssuesTool(), SearchIssuesMethod())
  }

  /** `get_issue`: announced at src/server.py:121-131, dispatched at src/server.py:361-362 */
  function GetIssueTool(): (t: CheckedTool)
    ensures t.schema.name == "get_issue"
  {
    Check(Tool(
      ToolDef("get_issue",
              [Plain("issue_key")],
              ["issue_key"]),
      Branch("get_issue", [Req("issue_key")])))
  }

  /** The branch of `get_issue` calls the client method of the same name */
  function GetIssueHandler(): (h: JiraTool)
    ensures h.tool.schema.name == "get_issue"
  {
    Handler(GetIssueTool(), GetIssueMethod())
  }

  /** `create_issue`: announced at src/server.py:132-148, dispatched at src/server.py:363-372 */
  function CreateIssueTool(): (t: CheckedTool)
    ensures t.schema.name == "create_issue"
  {
    Check(Tool(
      ToolDef("create_issue",
              [Plain("project_key"), Plain("summary"), Plain("issue_type"), Plain("description"),
               Plain("priority"), Plain("assignee_id"), Plain("labels")],
              ["project_key", "summary", "issue_type"]),
      Branch("create_issue", [Req("project_key"), Req("summary"), Req("issue_type"),
                              Opt("description", JNull), Opt("priority", JNull),
                              Opt("assignee_id", JNull), Opt("labels", JNull)])))
  }

  /** The branch of `create_issue` calls the client method of the same name */
  function CreateIssueHandler(): (h: JiraTool)
    ensures h.tool.schema.name == "create_issue"
  {
    Handler(CreateIssueTool(), CreateIssueMethod())
  }

  /** `update_issue`: announced at src/server.py:149-168, dispatched at src/server.py:373-385 */
  function UpdateIssueTool(): (t: CheckedTool)
    ensures t.schema.name == "update_issue"
  {
    Check(Tool(
      ToolDef("update_issue",
              [Plain("issue_key"), Plain("summary"), Plain("description"), Plain("priority"),
               Plain("assignee_id"), Plain("labels"), Plain("story_points"), Plain("sprint"),
               Plain("acceptance_criteria"), Plain("technical_requirements")],
              ["issue_key"]),
      Branch("update_issue", [Req("issue_key"), Opt("summary", JNull), Opt("description", JNull),
                              Opt("priority", JNull), Opt("assignee_id", JNull),
                              Opt("labels", JNull), Opt("story_points", JNull),
                              Opt("sprint", JNull), Opt("acceptance_criteria", JNull),
                              Opt("technical_requirements", JNull)])))
  }

  /** The branch of `update_issue` calls the client method of the same name */
  function UpdateIssueHandler(): (h: JiraTool)
    ensures h.tool.schema.name == "update_issue"
  {
    Handler(UpdateIssueTool(), UpdateIssueMethod())
  }

  /** `delete_issue`: announced at src/server.py:169-179, dispatched at src/server.py:386-387 */
  function DeleteIssueTool(): (t: CheckedTool)
    ensures t.schema.name == "delete_issue"
  {
    Check(Tool(
      ToolDef("delete_issue",
              [Plain("issue_key")],
              ["issue_key"]),
      Branch("delete_issue", [Req("issue_key")])))
  }

  /** The branch of `delete_issue` calls the client method of the same name */
  function DeleteIssueHandler(): (h: JiraTool)
    ensures h.tool.schema.name == "delete_issue"
  {
    Handler(DeleteIssueTool(), DeleteIssueMethod())
  }

  /** `assign_issue`: announced at src/server.py:180-191, dispatched at src/server.py:388-391 */
  function AssignIssueTool(): (t: CheckedTool)
    ensures t.schema.name == "assign_issue"
  {
    Check(Tool(
      ToolDef("assign_issue",
              [Plain("issue_key"), Plain("assignee_id")],
              ["issue_key", "assignee_id"]),
      Branch("assign_issue", [Req("issue_key"), Req("assignee_id")])))
  }

  /** The branch of `assign_issue` calls the client method of the same name */
  function AssignIssueHandler(): (h: JiraTool)
    ensures h.tool.schema.name == "assign_issue"
  {
    Handler(AssignIssueTool(), AssignIssueMethod())
  }

  /** `transition_issue`: announced at src/server.py:192-204, dispatched at src/server.py:392-397 */
  function TransitionIssueTool(): (t: CheckedTool)
    ensures t.schema.name == "transition_issue"
  {
    Check(Tool(
      ToolDef("transition_issue",
              [Plain("issue_key"), Plain("transition_id"), Plain("transition_name")],
              ["issue_key"]),
      Branch("transition_issue", [Req("issue_key"), Opt("transition_id", JNull),
                                  Opt("transition_name", JNull)])))
  }

  /** The branch of `transition_issue` calls the client method of the same name */
  function TransitionIssueHandler(): (h: JiraTool)
    ensures h.tool.schema.name == "transition_issue"
  {
    Handler(TransitionIssueTool(), TransitionIssueMethod())
  }

  /** `add_comment`: announced at src/server.py:205-216, dispatched at src/server.py:398-401 */
  function AddCommentTool(): (t: CheckedTool)
    ensures t.schema.name == "add_comment"
  {
    Check(Tool(
      ToolDef("add_comment",
              [Plain("issue_key"), Plain("comment")],
              ["issue_key", "comment"]),
      Branch("add_comment", [Req("issue_key"), Req("comment")])))
  }

  /** The branch of `add_comment` calls the client method of the same name */
  function AddCommentHandler(): (h: JiraTool)
    ensures h.tool.schema.name == "add_comment"
  {
    Handler(AddCommentTool(), AddCommentMethod())
  }

  /** `delete_comment`: announced at src/server.py:217-228, dispatched at src/server.py:402-405 */
  function DeleteCommentTool(): (t: CheckedTool)
    ensures t.schema.name == "delete_comment"
  {
    Check(Tool(
      ToolDef("delete_comment",
              [Plain("issue_key"), Plain("comment_id")],
              ["issue_key", "comment_id"]),
      Branch("delete_comment", [Req("issue_key"), Req("comment_id")])))
  }

  /** The branch of `delete_comment` calls the client method of the same name */
  function DeleteCommentHandler(): (h: JiraTool)
    ensures h.tool.schema.name == "delete_comment"
  {
    Handler(DeleteCommentTool(), DeleteCommentMethod())
  }

  /** `list_sprints`: announced at src/server.py:231-241, dispatched at src/server.py:408-409 */
  function ListSprintsTool(): (t: CheckedTool)
    ensures t.schema.name == "list_sprints"
  {
    Check(Tool(
      ToolDef("list_sprints",
              [Plain("board_id")],
              ["board_id"]),
      Branch("list_sprints", [Req("board_id")])))
  }

  /** The branch of `list_sprints` calls the client method of the same name */
  function ListSprintsHandler(): (h: JiraTool)
    ensures h.tool.schema.name == "list_sprints"
  {
    Handler(ListSprintsTool(), ListSprintsMethod())
  }

  /** `get_sprint`: announced at src/server.py:242-252, dispatched at src/server.py:410-411 */
  function GetSprintTool(): (t: CheckedTool)
    ensures t.schema.name == "get_sprint"
  {
    Check(Tool(
      ToolDef("get_sprint",
              [Plain("sprint_id")],
              ["sprint_id"]),
      Branch("get_sprint", [Req("sprint_id")])))
  }

  /** The branch of `get_sprint` calls the client method of the same name */
  function GetSprintHandler(): (h: JiraTool)
    ensures h.tool.schema.name == "get_sprint"
  {
    Handler(GetSprintTool(), GetSprintMethod())
  }

  /** `create_sprint`: announced at src/server.py:253-267, dispatched at src/server.py:412-419 */
  function CreateSprintTool(): (t: CheckedTool)
    ensures t.schema.name == "create_sprint"
  {
    Check(Tool(
      ToolDef("create_sprint",
              [Plain("board_id"), Plain("name"), Plain("start_date"), Plain("end_date"),
               Plain("goal")],
              ["board_id", "name"]),
      Branch("create_sprint", [Req("board_id"), Req("name"), Opt("start_date", JNull),
                               Opt("end_date", JNull), Opt("goal", JNull)])))
  }

  /** The branch of `create_sprint` calls the client method of the same name */
  function CreateSprintHandler(): (h: JiraTool)
    ensures h.tool.schema.name == "create_sprint"
  {
    Handler(CreateSprintTool(), CreateSprintMethod())
  }

  /** `move_issues_to_sprint`: announced at src/server.py:268-279, dispatched at src/server.py:420-423 */
  function MoveIssuesToSprintTool(): (t: CheckedTool)
    ensures t.schema.name == "move_issues_to_sprint"
  {
    Check(Tool(
      ToolDef("move_issues_to_sprint",
              [Plain("sprint_id"), Plain("issue_keys")],
              ["sprint_id", "issue_keys"]),
      Branch("move_issues_to_sprint", [Req("sprint_id"), Req("issue_keys")])))
  }

  /** The branch of `move_issues_to_sprint` calls the client method of the same name */
  function MoveIssuesToSprintHandler(): (h: JiraTool)
    ensures h.tool.schema.name == "move_issues_to_sprint"
  {
    Handler(MoveIssuesToSprintTool(), MoveIssuesToSprintMethod())
  }

  /** `list_boards`: announced at src/server.py:282-289, dispatched at src/server.py:426-427 */
  function ListBoardsTool(): (t: CheckedTool)
    ensures t.schema.name == "list_boards"
  {
    Check(Tool(
      ToolDef("list_boards",
              [],
              []),
      Branch("list_boards", [])))
  }

  /** The branch of `list_boards` calls the client method of the same name */
  function ListBoardsHandler(): (h: JiraTool)
    ensures h.tool.schema.name == "list_boards"
  {
    Handler(ListBoardsTool(), ListBoardsMethod())
  }

  /** `get_board`: announced at src/server.py:290-300, dispatched at src/server.py:428-429 */
  function GetBoardTool(): (t: CheckedTool)
    ensures t.schema.name == "get_board"
  {
    Check(Tool(
      ToolDef("get_board",
              [Plain("board_id")],
              ["board_id"]),
      Branch("get_board", [Req("board_id")])))
  }

  /** The branch of `get_board` calls the client method of the same name */
  function GetBoardHandler(): (h: JiraTool)
    ensures h.tool.schema.name == "get_board"
  {
    Handler(GetBoardTool(), GetBoardMethod())
  }

  /** `search_users`: announced at src/server.py:303-313, dispatched at src/server.py:432-433 */
  function SearchUsersTool(): (t: CheckedTool)
    ensures t.schema.name == "search_users"
  {
    Check(Tool(
      ToolDef("search_users",
              [Plain("query")],
              ["query"]),
      Branch("search_users", [Req("query")])))
  }

  /** The branch of `search_users` calls the client method of the same name */
  function SearchUsersHandler(): (h: JiraTool)
    ensures h.tool.schema.name == "search_users"
  {
    Handler(SearchUsersTool(), SearchUsersMethod())
  }

  /** `get_current_user`: announced at src/server.py:314-321, dispatched at src/server.py:434-435 */
  function GetCurrentUserTool(): (t: CheckedTool)
    ensures t.schema.name == "get_current_user"
  {
    Check(Tool(
      ToolDef("get_current_user",
              [],
              []),
      Branch("get_current_user", [])))
  }

  /** The branch of `get_current_user` calls the client method of the same name */
  function GetCurrentUserHandler(): (h: JiraTool)
    ensures h.tool.schema.name == "get_current_user"
  {
    Handler(GetCurrentUserTool(), GetCurrentUserMethod())
  }

  /** `get_custom_fields`: announced at src/server.py:324-331, dispatched at src/server.py:438-439 */
  function GetCustomFieldsTool(): (t: CheckedTool)
    ensures t.schema.name == "get_custom_fields"
  {
    Check(Tool(
      ToolDef("get_custom_fields",
              [],
              []),
      Branch("get_custom_fields", [])))
  }

  /** The branch of `get_custom_fields` calls the client method of the same name */
  function GetCustomFieldsHandler(): (h: JiraTool)
    ensures h.tool.schema.name == "get_custom_fields"
  {
    Handler(GetCustomFieldsTool(), GetCustomFieldsMethod())
  }

  /** The names of the tools `ProjectTools` lists */
  const ProjectToolNames: seq<string> :=
    ["list_projects", "get_project", "create_project"]

  /** The project tools (src/server.py:66-105), in order */
  function ProjectTools(i: nat): (t: JiraTool)
    requires i < 3
    ensures t.tool.schema.name == ProjectToolNames[i]
  {
    match i
    case 0 => ListProjectsHandler()
    case 1 => GetProjectHandler()
    case _ => CreateProjectHandler()
  }

  /** The names of the tools `IssueTools` lists */
  const IssueToolNames: seq<string> :=
    ["search_issues", "get_issue", "create_issue", "update_issue", "delete_issue"]

  /** The issue tools that read, create, change and delete issues
      (src/server.py:107-179), in order */
  function IssueTools(i: nat): (t: JiraTool)
    requires i < 5
    ensures t.tool.schema.name == IssueToolNames[i]
  {
    match i
    case 0 => SearchIssuesHandler()
    case 1 => GetIssueHandler()
    case 2 => CreateIssueHandler()
    case 3 => UpdateIssueHandler()
    case _ => DeleteIssueHandler()
  }

  /** The names of the tools `IssueWorkflowTools` lists */
  const IssueWorkflowToolNames: seq<string> :=
    ["assign_issue", "transition_issue", "add_comment", "delete_comment"]

  /** The issue tools that assign, transition and comment
      (src/server.py:180-228), in order */
  function IssueWorkflowTools(i: nat): (t: JiraTool)
    requires i < 4
    ensures t.tool.schema.name == IssueWorkflowToolNames[i]
  {
    match i
    case 0 => AssignIssueHandler()
    case 1 => TransitionIssueHandler()
    case 2 => AddCommentHandler()
    case _ => DeleteCommentHandler()
  }

  /** The names of the tools `SprintTools` lists */
  const SprintToolNames: seq<string> :=
    ["list_sprints", "get_sprint", "create_sprint", "move_issues_to_sprint"]

  /** The sprint tools (src/server.py:230-279), in order */
  function SprintTools(i: nat): (t: JiraTool)
    requires i < 4
    ensures t.tool.schema.name == SprintToolNames[i]
  {
    match i
    case 0 => ListSprintsHandler()
    case 1 => GetSprintHandler()
    case 2 => CreateSprintHandler()
    case _ => MoveIssuesToSprintHandler()
  }

  /** The names of the tools `BoardTools` lists */
  const BoardToolNames: seq<string> :=
    ["list_boards", "get_board"]

  /** The board tools (src/server.py:281-300), in order */
  function BoardTools(i: nat): (t: JiraTool)
    requires i < 2
    ensures t.tool.schema.name == BoardToolNames[i]
  {
    match i
    case 0 => ListBoardsHandler()
    case _ => GetBoardHandler()
  }

  /** The names of the tools `UserTools` lists */
  const UserToolNames: seq<string> :=
    ["search_users", "get_current_user"]

  /** The user tools (src/server.py:302-321), in order */
  function UserTools(i: nat): (t: JiraTool)
    requires i < 2
    ensures t.tool.schema.name == UserToolNames[i]
  {
    match i
    case 0 => SearchUsersHandler()
    case _ => GetCurrentUserHandler()
  }

  /** The names of the tools `FieldTools` lists */
  const FieldToolNames: seq<string> :=
    ["get_custom_fields"]

  /** The field tools (src/server.py:323-331), in order */
  function FieldTools(i: nat): (t: JiraTool)
    requires i < 1
    ensures t.tool.schema.name == FieldToolNames[i]
  {
    GetCustomFieldsHandler()
  }

  /** The tool names in the order `list_tools` announces them */
  const Names: seq<string> :=
    ProjectToolNames + IssueToolNames + IssueWorkflowToolNames + SprintToolNames + BoardToolNames +
    UserToolNames + FieldToolNames

  /** Where the `i`-th name sits among the sections */
  lemma NamesBySection(i: nat)
    requires i < ToolCount
    ensures i < 3 ==> Names[i] == ProjectToolNames[i]
    ensures 3 <= i < 8 ==> Names[i] == IssueToolNames[i - 3]
    ensures 8 <= i < 12 ==> Names[i] == IssueWorkflowToolNames[i - 8]
    ensures 12 <= i < 16 ==> Names[i] == SprintToolNames[i - 12]
    ensures 16 <= i < 18 ==> Names[i] == BoardToolNames[i - 16]
    ensures 18 <= i < 20 ==> Names[i] == UserToolNames[i - 18]
    ensures 20 <= i < 21 ==> Names[i] == FieldToolNames[i - 20]
  {
  }

  /** The `i`-th tool: `list_tools` announces the tools in this order and
      `call_tool` tests their names in the same order */
  function ToolAt(i: nat): (t: JiraTool)
    requires i < ToolCount
  {
    if i < 3 then ProjectTools(i)
    else if i < 8 then IssueTools(i - 3)
    else if i < 12 then IssueWorkflowTools(i - 8)
    else if i < 16 then SprintTools(i - 12)
    else if i < 18 then BoardTools(i - 16)
    else if i < 20 then UserTools(i - 18)
    else FieldTools(i - 20)
  }

  /** The schemas `list_tools` announces, in order */
  function Registry(): (ts: seq<ToolDef>)
    ensures |ts| == ToolCount
    ensures forall i :: 0 <= i < ToolCount ==> ts[i] == ToolAt(i).tool.schema
  {
    seq(ToolCount, i requires 0 <= i < ToolCount => ToolAt(i).tool.schema)
  }

  /** The names the branches of `call_tool` test, in order */
  function BranchNames(): (ns: seq<string>)
    ensures |ns| == ToolCount
    ensures forall i :: 0 <= i < ToolCount ==> ns[i] == ToolAt(i).tool.branch.name
  {
    seq(ToolCount, i requires 0 <= i < ToolCount => ToolAt(i).tool.branch.name)
  }

  /** No two tools share a name */
  lemma NamesDistinct()
    ensures Distinct(ToolNames(Registry()))
  {
    NamesApart00(); NamesApart01(); NamesApart02(); NamesApart11(); NamesApart12(); NamesApart22();
    DistinctByFingerprint(Names);
    forall i | 0 <= i < ToolCount
      ensures ToolNames(Registry())[i] == Names[i]
    {
      NameAt(i);
    }
    assert ToolNames(Registry()) == Names;
  }

  /** The `i`-th tool announces the `i`-th name */
  lemma NameAt(i: nat)
    requires i < ToolCount
    ensures ToolAt(i).tool.schema.name == Names[i]
  {
    NamesBySection(i);
  }

  /** Tools 0 to 6 have pairwise different fingerprints */
  lemma NamesApart00()
    ensures forall i, j :: 0 <= i < j < 7 ==> Fingerprint(Names[i]) != Fingerprint(Names[j])
  {
  }

  /** No tool from 0 to 6 shares a fingerprint with one from 7 to 13 */
  lemma NamesApart01()
    ensures forall i, j :: 0 <= i < 7 && 7 <= j < 14 ==> Fingerprint(Names[i]) != Fingerprint(Names[j])
  {
  }

  /** No tool from 0 to 6 shares a fingerprint with one from 14 to 20 */
  lemma NamesApart02()
    ensures forall i, j :: 0 <= i < 7 && 14 <= j < 21 ==> Fingerprint(Names[i]) != Fingerprint(Names[j])
  {
  }

  /** Tools 7 to 13 have pairwise different fingerprints */
  lemma NamesApart11()
    ensures forall i, j :: 7 <= i < j < 14 ==> Fingerprint(Names[i]) != Fingerprint(Names[j])
  {
  }

  /** No tool from 7 to 13 shares a fingerprint with one from 14 to 20 */
  lemma NamesApart12()
    ensures forall i, j :: 7 <= i < 14 && 14 <= j < 21 ==> Fingerprint(Names[i]) != Fingerprint(Names[j])
  {
  }

  /** Tools 14 to 20 have pairwise different fingerprints */
  lemma NamesApart22()
    ensures forall i, j :: 14 <= i < j < 21 ==> Fingerprint(Names[i]) != Fingerprint(Names[j])
  {
  }

  /** Each tool's branch calls the client method at the same position: the
      server lists its tools in the order the client defines its methods */
  lemma CalleeAt(i: nat)
    requires i < ToolCount
    ensures ToolAt(i).callee == Methods()[i]
  {
    if i < 3 { ProjectCallees(i); }
    else if i < 8 { IssueCallees(i); }
    else if i < 12 { IssueWorkflowCallees(i); }
    else if i < 16 { SprintCallees(i); }
    else if i < 18 { BoardCallees(i); }
    else if i < 20 { UserCallees(i); }
    else { FieldCallees(i); }
  }

  lemma ProjectCallees(i: nat)
    requires i < 3
    ensures ToolAt(i).callee == Methods()[i]
  {
    MethodInSection(i);
  }

  lemma IssueCallees(i: nat)
    requires 3 <= i < 8
    ensures ToolAt(i).callee == Methods()[i]
  {
    MethodInSection(i);
  }

  lemma IssueWorkflowCallees(i: nat)
    requires 8 <= i < 12
    ensures ToolAt(i).callee == Methods()[i]
  {
    MethodInSection(i);
  }

  lemma SprintCallees(i: nat)
    requires 12 <= i < 16
    ensures ToolAt(i).callee == Methods()[i]
  {
    MethodInSection(i);
  }

  lemma BoardCallees(i: nat)
    requires 16 <= i < 18
    ensures ToolAt(i).callee == Methods()[i]
  {
    MethodInSection(i);
  }

  lemma UserCallees(i: nat)
    requires 18 <= i < 20
    ensures ToolAt(i).callee == Methods()[i]
  {
    MethodInSection(i);
  }

  lemma FieldCallees(i: nat)
    requires i == 20
    ensures ToolAt(i).callee == Methods()[i]
  {
    MethodInSection(i);
  }
}
