/** The JIRA REST client: for every operation, the request it sends and how it
    turns the response into its return value. Arguments are JSON values as
    the tool dispatcher hands them over; `JNull` stands for Python's None. */
module JiraClient {
  import opened Wrappers
  import opened Json
  import opened Http
  import opened Signatures
  import Adf

  // ------------------------------------------------------------------ client

  /** `jira_url.rstrip('/')`: the longest prefix that does not end in '/';
      everything cut off is slashes */
  function StripTrailingSlashes(s: string): (r: string)
    ensures r <= s
    ensures |r| == 0 || r[|r| - 1] != '/'
    ensures forall i :: |r| <= i < |s| ==> s[i] == '/'
  {
    if |s| > 0 && s[|s| - 1] == '/' then StripTrailingSlashes(s[..|s| - 1]) else s
  }

  /** A client holds its instance URL with trailing slashes removed */
  datatype Client = Client(jiraUrl: string)

  function NewClient(jiraUrl: string): (c: Client)
    ensures c.jiraUrl <= jiraUrl
    ensures |c.jiraUrl| == 0 || c.jiraUrl[|c.jiraUrl| - 1] != '/'
    ensures forall i :: |c.jiraUrl| <= i < |jiraUrl| ==> jiraUrl[i] == '/'
  {
    Client(StripTrailingSlashes(jiraUrl))
  }

  /** A URL under the REST API, version 3 */
  function Api(c: Client, path: string): (url: string)
    ensures c.jiraUrl <= url
  {
    c.jiraUrl + "/rest/api/3" + path
  }

  /** A URL under the Agile API, version 1.0 */
  function Agile(c: Client, path: string): (url: string)
    ensures c.jiraUrl <= url
  {
    c.jiraUrl + "/rest/agile/1.0" + path
  }

  // ------------------------------------------------------------ operations

  /** One client method together with the arguments it receives */
  datatype Call =
    | ListProjects
    | GetProject(projectKey: Json)
    | CreateProject(key: Json, name: Json, projectTypeKey: Json, leadAccountId: Json, description: Json)
    | SearchIssues(jql: Json, maxResults: Json, startAt: Json, fields: Json)
    | GetIssue(issueKey: Json)
    | CreateIssue(projectKey: Json, summary: Json, issueType: Json, description: Json,
                  priority: Json, assigneeId: Json, labels: Json)
    | UpdateIssue(issueKey: Json, summary: Json, description: Json, priority: Json, assigneeId: Json,
                  labels: Json, storyPoints: Json, sprint: Json, acceptanceCriteria: Json,
                  technicalRequirements: Json)
    | DeleteIssue(issueKey: Json)
    | AssignIssue(issueKey: Json, assigneeId: Json)
    | TransitionIssue(issueKey: Json, transitionId: Json, transitionName: Json)
    | AddComment(issueKey: Json, comment: Json)
    | DeleteComment(issueKey: Json, commentId: Json)
    | ListSprints(boardId: Json)
    | GetSprint(sprintId: Json)
    | CreateSprint(boardId: Json, name: Json, startDate: Json, endDate: Json, goal: Json)
    | MoveIssuesToSprint(sprintId: Json, issueKeys: Json)
    | ListBoards
    | GetBoard(boardId: Json)
    | SearchUsers(query: Json)
    | GetCurrentUser
    | GetCustomFields

  /** The Python name of the client method */
  function MethodName(call: Call): string {
    match call
    case ListProjects => "list_projects"
    case GetProject(_) => "get_project"
    case CreateProject(_, _, _, _, _) => "create_project"
    case SearchIssues(_, _, _, _) => "search_issues"
    case GetIssue(_) => "get_issue"
    case CreateIssue(_, _, _, _, _, _, _) => "create_issue"
    case UpdateIssue(_, _, _, _, _, _, _, _, _, _) => "update_issue"
    case DeleteIssue(_) => "delete_issue"
    case AssignIssue(_, _) => "assign_issue"
    case TransitionIssue(_, _, _) => "transition_issue"
    case AddComment(_, _) => "add_comment"
    case DeleteComment(_, _) => "delete_comment"
    case ListSprints(_) => "list_sprints"
    case GetSprint(_) => "get_sprint"
    case CreateSprint(_, _, _, _, _) => "create_sprint"
    case MoveIssuesToSprint(_, _) => "move_issues_to_sprint"
    case ListBoards => "list_boards"
    case GetBoard(_) => "get_board"
    case SearchUsers(_) => "search_users"
    case GetCurrentUser => "get_current_user"
    case GetCustomFields => "get_custom_fields"
  }

  /** The client's methods, in the order the class defines them and the
      order of the `Call` constructors */
  function Methods(): seq<Method> {
    ProjectMethods() + IssueMethods() + SprintMethods() + BoardMethods() + UserMethods() + FieldMethods()
  }

  /** The method at position `k` is the one its section holds there */
  lemma MethodInSection(k: nat)
    requires k < |Methods()|
    ensures k < 3 ==> Methods()[k] == ProjectMethods()[k]
    ensures 3 <= k < 12 ==> Methods()[k] == IssueMethods()[k - 3]
    ensures 12 <= k < 16 ==> Methods()[k] == SprintMethods()[k - 12]
    ensures 16 <= k < 18 ==> Methods()[k] == BoardMethods()[k - 16]
    ensures 18 <= k < 20 ==> Methods()[k] == UserMethods()[k - 18]
    ensures 20 <= k ==> Methods()[k] == FieldMethods()[k - 20]
  {
  }

  /** The project operations (src/jira_client.py:52-112) */
  function ProjectMethods(): seq<Method> {
    [ListProjectsMethod(), GetProjectMethod(), CreateProjectMethod()]
  }

  /** The issue operations (src/jira_client.py:114-427) */
  function IssueMethods(): seq<Method> {
    [SearchIssuesMethod(), GetIssueMethod(), CreateIssueMethod(), UpdateIssueMethod(), DeleteIssueMethod(), AssignIssueMethod(), TransitionIssueMethod(), AddCommentMethod(), DeleteCommentMethod()]
  }

  /** The sprint operations (src/jira_client.py:429-515) */
  function SprintMethods(): seq<Method> {
    [ListSprintsMethod(), GetSprintMethod(), CreateSprintMethod(), MoveIssuesToSprintMethod()]
  }

  /** The board operations (src/jira_client.py:517-540) */
  function BoardMethods(): seq<Method> {
    [ListBoardsMethod(), GetBoardMethod()]
  }

  /** The user operations (src/jira_client.py:542-568) */
  function UserMethods(): seq<Method> {
    [SearchUsersMethod(), GetCurrentUserMethod()]
  }

  /** The field operations (src/jira_client.py:570-599) */
  function FieldMethods(): seq<Method> {
    [GetCustomFieldsMethod()]
  }

  /** `list_projects`, src/jira_client.py:54 */
  function ListProjectsMethod(): Method {
    Method("list_projects", [])
  }

  /** `get_project`, src/jira_client.py:64 */
  function GetProjectMethod(): Method {
    Method("get_project", [Needed("project_key")])
  }

  /** `create_project`, src/jira_client.py:77-84 */
  function CreateProjectMethod(): Method {
    Method("create_project", [Needed("key"), Needed("name"), Param("project_type_key", Some(JStr("software"))),
            NoneByDefault("lead_account_id"), NoneByDefault("description")])
  }

  /** `search_issues`, src/jira_client.py:116-119 */
  function SearchIssuesMethod(): Method {
    Method("search_issues", [Needed("jql"), Param("max_results", Some(JInt(50))), Param("start_at", Some(JInt(0))),
            NoneByDefault("fields")])
  }

  /** `get_issue`, src/jira_client.py:148 */
  function GetIssueMethod(): Method {
    Method("get_issue", [Needed("issue_key")])
  }

  /** `create_issue`, src/jira_client.py:169-178 */
  function CreateIssueMethod(): Method {
    Method("create_issue", [Needed("project_key"), Needed("summary"), Needed("issue_type"), NoneByDefault("description"),
            NoneByDefault("priority"), NoneByDefault("assignee_id"), NoneByDefault("labels")])
  }

  /** `update_issue`, src/jira_client.py:225-237 */
  function UpdateIssueMethod(): Method {
    Method("update_issue", [Needed("issue_key"), NoneByDefault("summary"), NoneByDefault("description"),
            NoneByDefault("priority"), NoneByDefault("assignee_id"), NoneByDefault("labels"),
            NoneByDefault("story_points"), NoneByDefault("sprint"), NoneByDefault("acceptance_criteria"),
            NoneByDefault("technical_requirements")])
  }

  /** `delete_issue`, src/jira_client.py:316 */
  function DeleteIssueMethod(): Method {
    Method("delete_issue", [Needed("issue_key")])
  }

  /** `assign_issue`, src/jira_client.py:329 */
  function AssignIssueMethod(): Method {
    Method("assign_issue", [Needed("issue_key"), Needed("assignee_id")])
  }

  /** `transition_issue`, src/jira_client.py:347-349 */
  function TransitionIssueMethod(): Method {
    Method("transition_issue", [Needed("issue_key"), NoneByDefault("transition_id"), NoneByDefault("transition_name")])
  }

  /** `add_comment`, src/jira_client.py:384 */
  function AddCommentMethod(): Method {
    Method("add_comment", [Needed("issue_key"), Needed("comment")])
  }

  /** `delete_comment`, src/jira_client.py:413 */
  function DeleteCommentMethod(): Method {
    Method("delete_comment", [Needed("issue_key"), Needed("comment_id")])
  }

  /** `list_sprints`, src/jira_client.py:431 */
  function ListSprintsMethod(): Method {
    Method("list_sprints", [Needed("board_id")])
  }

  /** `get_sprint`, src/jira_client.py:446 */
  function GetSprintMethod(): Method {
    Method("get_sprint", [Needed("sprint_id")])
  }

  /** `create_sprint`, src/jira_client.py:459-466 */
  function CreateSprintMethod(): Method {
    Method("create_sprint", [Needed("board_id"), Needed("name"), NoneByDefault("start_date"), NoneByDefault("end_date"),
            NoneByDefault("goal")])
  }

  /** `move_issues_to_sprint`, src/jira_client.py:497-499 */
  function MoveIssuesToSprintMethod(): Method {
    Method("move_issues_to_sprint", [Needed("sprint_id"), Needed("issue_keys")])
  }

  /** `list_boards`, src/jira_client.py:519 */
  function ListBoardsMethod(): Method {
    Method("list_boards", [])
  }

  /** `get_board`, src/jira_client.py:529 */
  function GetBoardMethod(): Method {
    Method("get_board", [Needed("board_id")])
  }

  /** `search_users`, src/jira_client.py:544 */
  function SearchUsersMethod(): Method {
    Method("search_users", [Needed("query")])
  }

  /** `get_current_user`, src/jira_client.py:560 */
  function GetCurrentUserMethod(): Method {
    Method("get_current_user", [])
  }

  /** `get_custom_fields`, src/jira_client.py:572 */
  function GetCustomFieldsMethod(): Method {
    Method("get_custom_fields", [])
  }

  function MethodNames(): (ns: seq<string>)
    ensures |ns| == |Methods()|
    ensures forall k :: 0 <= k < |ns| ==> ns[k] == Methods()[k].name
  {
    seq(|Methods()|, k requires 0 <= k < |Methods()| => Methods()[k].name)
  }

  /** The signature of the method named `name`; None for a name the client
      has no method of */
  function Signature(name: string): (sig: Option<seq<Param>>)
    ensures sig.Some? <==> name in MethodNames()
  {
    match Position(MethodNames(), name)
    case None => None
    case Some(k) => Some(Methods()[k].params)
  }

  /** The values the call passes, one per parameter in signature order */
  function Args(call: Call): seq<Json> {
    match call
    case ListProjects => []
    case GetProject(v0) => [v0]
    case CreateProject(v0, v1, v2, v3, v4) => [v0, v1, v2, v3, v4]
    case SearchIssues(v0, v1, v2, v3) => [v0, v1, v2, v3]
    case GetIssue(v0) => [v0]
    case CreateIssue(v0, v1, v2, v3, v4, v5, v6) => [v0, v1, v2, v3, v4, v5, v6]
    case UpdateIssue(v0, v1, v2, v3, v4, v5, v6, v7, v8, v9) => [v0, v1, v2, v3, v4, v5, v6, v7, v8, v9]
    case DeleteIssue(v0) => [v0]
    case AssignIssue(v0, v1) => [v0, v1]
    case TransitionIssue(v0, v1, v2) => [v0, v1, v2]
    case AddComment(v0, v1) => [v0, v1]
    case DeleteComment(v0, v1) => [v0, v1]
    case ListSprints(v0) => [v0]
    case GetSprint(v0) => [v0]
    case CreateSprint(v0, v1, v2, v3, v4) => [v0, v1, v2, v3, v4]
    case MoveIssuesToSprint(v0, v1) => [v0, v1]
    case ListBoards => []
    case GetBoard(v0) => [v0]
    case SearchUsers(v0) => [v0]
    case GetCurrentUser => []
    case GetCustomFields => []
  }

  /** The call of the `k`-th method with one value per parameter, in
      signature order; None for the wrong number of values */
  function Make(k: nat, ws: seq<Json>): (r: Option<Call>)
    requires k < |Methods()|
    ensures r.Some? <==> |ws| == |Methods()[k].params|
    ensures r.Some? ==> MethodName(r.value) == Methods()[k].name && Args(r.value) == ws
  {
    if k < 3 then MakeProject(k, ws)
    else if k < 12 then MakeIssue(k - 3, ws)
    else if k < 16 then MakeSprint(k - 12, ws)
    else if k < 18 then MakeBoard(k - 16, ws)
    else if k < 20 then MakeUser(k - 18, ws)
    else MakeField(k - 20, ws)
  }

  /** `Make` for the project operations */
  function MakeProject(k: nat, ws: seq<Json>): (r: Option<Call>)
    requires k < |ProjectMethods()|
    ensures r.Some? <==> |ws| == |ProjectMethods()[k].params|
    ensures r.Some? ==> MethodName(r.value) == ProjectMethods()[k].name && Args(r.value) == ws
  {
    match k
    case 0 => if |ws| == 0 then Some(ListProjects) else None
    case 1 => if |ws| == 1 then Some(GetProject(ws[0])) else None
    case _ =>
      if |ws| == 5 then Some(CreateProject(ws[0], ws[1], ws[2], ws[3], ws[4]))
      else None
  }

  /** `Make` for the issue operations */
  function MakeIssue(k: nat, ws: seq<Json>): (r: Option<Call>)
    requires k < |IssueMethods()|
    ensures r.Some? <==> |ws| == |IssueMethods()[k].params|
    ensures r.Some? ==> MethodName(r.value) == IssueMethods()[k].name && Args(r.value) == ws
  {
    match k
    case 0 =>
      if |ws| == 4 then Some(SearchIssues(ws[0], ws[1], ws[2], ws[3]))
      else None
    case 1 => if |ws| == 1 then Some(GetIssue(ws[0])) else None
    case 2 =>
      if |ws| == 7 then Some(CreateIssue(ws[0], ws[1], ws[2], ws[3], ws[4], ws[5], ws[6]))
      else None
    case 3 =>
      if |ws| == 10 then Some(UpdateIssue(ws[0], ws[1], ws[2], ws[3], ws[4], ws[5], ws[6],
                                            ws[7], ws[8], ws[9]))
      else None
    case 4 => if |ws| == 1 then Some(DeleteIssue(ws[0])) else None
    case 5 => if |ws| == 2 then Some(AssignIssue(ws[0], ws[1])) else None
    case 6 =>
      if |ws| == 3 then Some(TransitionIssue(ws[0], ws[1], ws[2]))
      else None
    case 7 => if |ws| == 2 then Some(AddComment(ws[0], ws[1])) else None
    case _ => if |ws| == 2 then Some(DeleteComment(ws[0], ws[1])) else None
  }

  /** `Make` for the sprint operations */
  function MakeSprint(k: nat, ws: seq<Json>): (r: Option<Call>)
    requires k < |SprintMethods()|
    ensures r.Some? <==> |ws| == |SprintMethods()[k].params|
    ensures r.Some? ==> MethodName(r.value) == SprintMethods()[k].name && Args(r.value) == ws
  {
    match k
    case 0 => if |ws| == 1 then Some(ListSprints(ws[0])) else None
    case 1 => if |ws| == 1 then Some(GetSprint(ws[0])) else None
    case 2 =>
      if |ws| == 5 then Some(CreateSprint(ws[0], ws[1], ws[2], ws[3], ws[4]))
      else None
    case _ =>
      if |ws| == 2 then Some(MoveIssuesToSprint(ws[0], ws[1]))
      else None
  }

  /** `Make` for the board operations */
  function MakeBoard(k: nat, ws: seq<Json>): (r: Option<Call>)
    requires k < |BoardMethods()|
    ensures r.Some? <==> |ws| == |BoardMethods()[k].params|
    ensures r.Some? ==> MethodName(r.value) == BoardMethods()[k].name && Args(r.value) == ws
  {
    match k
    case 0 => if |ws| == 0 then Some(ListBoards) else None
    case _ => if |ws| == 1 then Some(GetBoard(ws[0])) else None
  }

  /** `Make` for the user operations */
  function MakeUser(k: nat, ws: seq<Json>): (r: Option<Call>)
    requires k < |UserMethods()|
    ensures r.Some? <==> |ws| == |UserMethods()[k].params|
    ensures r.Some? ==> MethodName(r.value) == UserMethods()[k].name && Args(r.value) == ws
  {
    match k
    case 0 => if |ws| == 1 then Some(SearchUsers(ws[0])) else None
    case _ => if |ws| == 0 then Some(GetCurrentUser) else None
  }

  /** `Make` for the field operations */
  function MakeField(k: nat, ws: seq<Json>): (r: Option<Call>)
    requires k < |FieldMethods()|
    ensures r.Some? <==> |ws| == |FieldMethods()[k].params|
    ensures r.Some? ==> MethodName(r.value) == FieldMethods()[k].name && Args(r.value) == ws
  {
    if |ws| == 0 then Some(GetCustomFields) else None
  }

  /** `getattr(client, name)(*vs)`: the values bind to the parameters in
      order and the parameters after them take their defaults; None where
      Python raises (an unknown method, or values the signature cannot take) */
  function Invoke(name: string, vs: seq<Json>): (r: Option<Call>)
    ensures r.Some? <==> Signature(name).Some? && Positional(Signature(name).value, vs).Some?
    ensures r.Some? ==> MethodName(r.value) == name && Args(r.value) == Positional(Signature(name).value, vs).value
  {
    match Position(MethodNames(), name)
    case None => None
    case Some(k) =>
      match Positional(Methods()[k].params, vs)
      case None => None
      case Some(ws) => Make(k, ws)
  }

  // ---------------------------------------------------------- body builders

  /** `x is not None` */
  predicate NotNone(x: Json) {
    !x.JNull?
  }

  /** The project creation body: key, name and project type always; the lead
      and the description only when truthy */
  function CreateProjectBody(key: Json, name: Json, projectType: Json, lead: Json, description: Json): (ms: Members)
    ensures Get(ms, "key") == Some(key)
    ensures Get(ms, "name") == Some(name)
    ensures Get(ms, "projectTypeKey") == Some(projectType)
    ensures Get(ms, "leadAccountId") == if Truthy(lead) then Some(lead) else None
    ensures Get(ms, "description") == if Truthy(description) then Some(description) else None
    ensures forall m :: m in ms ==>
      || m.0 == "key" || m.0 == "name" || m.0 == "projectTypeKey"
      || (m.0 == "leadAccountId" && Truthy(lead)) || (m.0 == "description" && Truthy(description))
  {
    var ks := ["key", "name", "projectTypeKey", "leadAccountId", "description"];
    var vs := [key, name, projectType, lead, description];
    var ps := [true, true, true, Truthy(lead), Truthy(description)];
    assert Distinct(ks);
    ObjectGet(ks, vs, ps, 0);
    ObjectGet(ks, vs, ps, 1);
    ObjectGet(ks, vs, ps, 2);
    ObjectGet(ks, vs, ps, 3);
    ObjectGet(ks, vs, ps, 4);
    ObjectOfFiveHoldsOnlyPresent(ks, vs, ps);
    Object(ks, vs, ps)
  }

  /** The JQL search body. There is no `startAt`: the search endpoint pages
      by cursor, so the offset argument is accepted and dropped. */
  function SearchBody(jql: Json, maxResults: Json, fields: Json): (ms: Members)
    ensures Get(ms, "jql") == Some(jql)
    ensures Get(ms, "maxResults") == Some(maxResults)
    ensures Get(ms, "fields") == if Truthy(fields) then Some(fields) else None
    ensures Get(ms, "startAt") == None
    ensures forall m :: m in ms ==>
      m.0 == "jql" || m.0 == "maxResults" || (m.0 == "fields" && Truthy(fields))
  {
    var ks := ["jql", "maxResults", "fields"];
    var vs := [jql, maxResults, fields];
    var ps := [true, true, Truthy(fields)];
    assert Distinct(ks);
    ObjectGet(ks, vs, ps, 0);
    ObjectGet(ks, vs, ps, 1);
    ObjectGet(ks, vs, ps, 2);
    ObjectMissing(ks, vs, ps, "startAt");
    ObjectOfThreeHoldsOnlyPresent(ks, vs, ps);
    Object(ks, vs, ps)
  }

  /** The `fields` of a new issue: project, summary and issue type always;
      description (as a one-paragraph document), priority, assignee and
      labels only when the argument is truthy */
  function CreateIssueFields(projectKey: Json, summary: Json, issueType: Json, description: Json,
                             priority: Json, assigneeId: Json, labels: Json): (ms: Members)
    ensures Get(ms, "project") == Some(Single("key", projectKey))
    ensures Get(ms, "summary") == Some(summary)
    ensures Get(ms, "issuetype") == Some(Single("name", issueType))
    ensures Get(ms, "description") == if Truthy(description) then Some(Adf.Paragraph(description)) else None
    ensures Get(ms, "priority") == if Truthy(priority) then Some(Single("name", priority)) else None
    ensures Get(ms, "assignee") == if Truthy(assigneeId) then Some(Single("id", assigneeId)) else None
    ensures Get(ms, "labels") == if Truthy(labels) then Some(labels) else None
    ensures forall m :: m in ms ==>
      || m.0 == "project" || m.0 == "summary" || m.0 == "issuetype"
      || (m.0 == "description" && Truthy(description)) || (m.0 == "priority" && Truthy(priority))
      || (m.0 == "assignee" && Truthy(assigneeId)) || (m.0 == "labels" && Truthy(labels))
  {
    var ks := ["project", "summary", "issuetype", "description", "priority", "assignee", "labels"];
    var vs := [Single("key", projectKey), summary, Single("name", issueType), Adf.Paragraph(description),
               Single("name", priority), Single("id", assigneeId), labels];
    var ps := [true, true, true, Truthy(description), Truthy(priority), Truthy(assigneeId), Truthy(labels)];
    assert Distinct(ks);
    ObjectGet(ks, vs, ps, 0);
    ObjectGet(ks, vs, ps, 1);
    ObjectGet(ks, vs, ps, 2);
    ObjectGet(ks, vs, ps, 3);
    ObjectGet(ks, vs, ps, 4);
    ObjectGet(ks, vs, ps, 5);
    ObjectGet(ks, vs, ps, 6);
    ObjectOfSevenHoldsOnlyPresent(ks, vs, ps);
    Object(ks, vs, ps)
  }

  /** The `fields` of an issue update. Summary, description, priority and
      assignee are sent only when truthy; labels, story points (custom field
      10105), sprint (10106), acceptance criteria (10103) and technical
      requirements (10104) are sent whenever they are not None, so an empty
      list, 0 or "" is sent as given */
  function UpdateIssueFields(summary: Json, description: Json, priority: Json, assigneeId: Json,
                             labels: Json, storyPoints: Json, sprint: Json,
                             acceptanceCriteria: Json, technicalRequirements: Json): (ms: Members)
    ensures Get(ms, "summary") == if Truthy(summary) then Some(summary) else None
    ensures Get(ms, "description") == if Truthy(description) then Some(Adf.Paragraph(description)) else None
    ensures Get(ms, "priority") == if Truthy(priority) then Some(Single("name", priority)) else None
    ensures Get(ms, "assignee") == if Truthy(assigneeId) then Some(Single("id", assigneeId)) else None
    ensures Get(ms, "labels") == if NotNone(labels) then Some(labels) else None
    ensures Get(ms, "customfield_10105") == if NotNone(storyPoints) then Some(storyPoints) else None
    ensures Get(ms, "customfield_10106") == if NotNone(sprint) then Some(sprint) else None
    ensures Get(ms, "customfield_10103") ==
      if NotNone(acceptanceCriteria) then Some(Adf.Paragraph(acceptanceCriteria)) else None
    ensures Get(ms, "customfield_10104") ==
      if NotNone(technicalRequirements) then Some(Adf.Paragraph(technicalRequirements)) else None
  {
    var ks := ["summary", "description", "priority", "assignee", "labels",
               "customfield_10105", "customfield_10106", "customfield_10103", "customfield_10104"];
    var vs := [summary, Adf.Paragraph(description), Single("name", priority), Single("id", assigneeId), labels,
               storyPoints, sprint, Adf.Paragraph(acceptanceCriteria), Adf.Paragraph(technicalRequirements)];
    var ps := [Truthy(summary), Truthy(description), Truthy(priority), Truthy(assigneeId), NotNone(labels),
               NotNone(storyPoints), NotNone(sprint), NotNone(acceptanceCriteria), NotNone(technicalRequirements)];
    assert Distinct(ks);
    ObjectGet(ks, vs, ps, 0);
    ObjectGet(ks, vs, ps, 1);
    ObjectGet(ks, vs, ps, 2);
    ObjectGet(ks, vs, ps, 3);
    ObjectGet(ks, vs, ps, 4);
    ObjectGet(ks, vs, ps, 5);
    ObjectGet(ks, vs, ps, 6);
    ObjectGet(ks, vs, ps, 7);
    ObjectGet(ks, vs, ps, 8);
    Object(ks, vs, ps)
  }

  /** An update sends no field beyond the nine it may set, and each only
      under its own condition */
  lemma UpdateIssueFieldsHoldsOnlyGiven(summary: Json, description: Json, priority: Json, assigneeId: Json,
                                        labels: Json, storyPoints: Json, sprint: Json,
                                        acceptanceCriteria: Json, technicalRequirements: Json)
    ensures forall m :: m in UpdateIssueFields(summary, description, priority, assigneeId, labels, storyPoints, sprint,
                                            acceptanceCriteria, technicalRequirements) ==>
      || (m.0 == "summary" && Truthy(summary)) || (m.0 == "description" && Truthy(description))
      || (m.0 == "priority" && Truthy(priority)) || (m.0 == "assignee" && Truthy(assigneeId))
      || (m.0 == "labels" && NotNone(labels)) || (m.0 == "customfield_10105" && NotNone(storyPoints))
      || (m.0 == "customfield_10106" && NotNone(sprint))
      || (m.0 == "customfield_10103" && NotNone(acceptanceCriteria))
      || (m.0 == "customfield_10104" && NotNone(technicalRequirements))
  {
    var ks := ["summary", "description", "priority", "assignee", "labels",
               "customfield_10105", "customfield_10106", "customfield_10103", "customfield_10104"];
    var vs := [summary, Adf.Paragraph(description), Single("name", priority), Single("id", assigneeId), labels,
               storyPoints, sprint, Adf.Paragraph(acceptanceCriteria), Adf.Paragraph(technicalRequirements)];
    var ps := [Truthy(summary), Truthy(description), Truthy(priority), Truthy(assigneeId), NotNone(labels),
               NotNone(storyPoints), NotNone(sprint), NotNone(acceptanceCriteria), NotNone(technicalRequirements)];
    ObjectOfNineHoldsOnlyPresent(ks[0], ks[1], ks[2], ks[3], ks[4], ks[5], ks[6], ks[7], ks[8], vs,
                                 ps[0], ps[1], ps[2], ps[3], ps[4], ps[5], ps[6], ps[7], ps[8]);
  }

  /** An update with every optional argument absent sends `{"fields": {}}` */
  lemma UpdateIssueWithNothing()
    ensures UpdateIssueFields(JNull, JNull, JNull, JNull, JNull, JNull, JNull, JNull, JNull) == []
  {
    var ks := ["summary", "description", "priority", "assignee", "labels",
               "customfield_10105", "customfield_10106", "customfield_10103", "customfield_10104"];
    var vs := [JNull, Adf.Paragraph(JNull), Single("name", JNull), Single("id", JNull), JNull,
               JNull, JNull, Adf.Paragraph(JNull), Adf.Paragraph(JNull)];
    var ps := [false, false, false, false, false, false, false, false, false];
    ObjectEmpty(ks, vs, ps);
  }

  /** The sprint creation body: name and board always; dates and goal only
      when truthy */
  function CreateSprintBody(boardId: Json, name: Json, startDate: Json, endDate: Json, goal: Json): (ms: Members)
    ensures Get(ms, "name") == Some(name)
    ensures Get(ms, "originBoardId") == Some(boardId)
    ensures Get(ms, "startDate") == if Truthy(startDate) then Some(startDate) else None
    ensures Get(ms, "endDate") == if Truthy(endDate) then Some(endDate) else None
    ensures Get(ms, "goal") == if Truthy(goal) then Some(goal) else None
    ensures forall m :: m in ms ==>
      || m.0 == "name" || m.0 == "originBoardId" || (m.0 == "startDate" && Truthy(startDate))
      || (m.0 == "endDate" && Truthy(endDate)) || (m.0 == "goal" && Truthy(goal))
  {
    var ks := ["name", "originBoardId", "startDate", "endDate", "goal"];
    var vs := [name, boardId, startDate, endDate, goal];
    var ps := [true, true, Truthy(startDate), Truthy(endDate), Truthy(goal)];
    assert Distinct(ks);
    ObjectGet(ks, vs, ps, 0);
    ObjectGet(ks, vs, ps, 1);
    ObjectGet(ks, vs, ps, 2);
    ObjectGet(ks, vs, ps, 3);
    ObjectGet(ks, vs, ps, 4);
    ObjectOfFiveHoldsOnlyPresent(ks, vs, ps);
    Object(ks, vs, ps)
  }

  /** `{"transition": {"id": transition_id}}` */
  function TransitionBody(id: Json): Members {
    [("transition", Single("id", id))]
  }

  // --------------------------------------------------------------- requests

  /** `{jira_url}/rest/api/3/issue/{issue_key}` followed by `rest` */
  function IssueUrl(c: Client, issueKey: Json, rest: string): (url: string)
    ensures c.jiraUrl <= url
  {
    Api(c, "/issue/" + Str(issueKey) + rest)
  }

  /** The request a call sends. For `transition_issue` this is the POST that
      performs the transition with the id the call carries; when the id must
      first be looked up by name, a GET of the issue's transitions precedes
      it (see `Transition`). */
  function RequestOf(c: Client, call: Call): (r: Request)
    ensures c.jiraUrl <= r.url
    ensures r.params != [] ==> call.SearchUsers?
  {
    match call
    case ListProjects => Fetch(Api(c, "/project"))
    case GetProject(k) => Fetch(Api(c, "/project/" + Str(k)))
    case CreateProject(k, n, t, l, d) => Send(POST, Api(c, "/project"), CreateProjectBody(k, n, t, l, d))
    case SearchIssues(q, m, _, f) => Send(POST, Api(c, "/search/jql"), SearchBody(q, m, f))
    case GetIssue(k) => Fetch(IssueUrl(c, k, ""))
    case CreateIssue(p, s, t, d, pr, a, l) =>
      Send(POST, Api(c, "/issue"), [("fields", JObj(CreateIssueFields(p, s, t, d, pr, a, l)))])
    case UpdateIssue(k, s, d, pr, a, l, sp, spr, ac, tr) =>
      Send(PUT, IssueUrl(c, k, ""), [("fields", JObj(UpdateIssueFields(s, d, pr, a, l, sp, spr, ac, tr)))])
    case DeleteIssue(k) => Remove(IssueUrl(c, k, ""))
    case AssignIssue(k, a) => Send(PUT, IssueUrl(c, k, "/assignee"), [("accountId", a)])
    case TransitionIssue(k, id, _) => Send(POST, IssueUrl(c, k, "/transitions"), TransitionBody(id))
    case AddComment(k, text) => Send(POST, IssueUrl(c, k, "/comment"), [("body", Adf.Paragraph(text))])
    case DeleteComment(k, id) => Remove(IssueUrl(c, k, "/comment/" + Str(id)))
    case ListSprints(b) => Fetch(Agile(c, "/board/" + Str(b) + "/sprint"))
    case GetSprint(sp) => Fetch(Agile(c, "/sprint/" + Str(sp)))
    case CreateSprint(b, n, st, e, g) => Send(POST, Agile(c, "/sprint"), CreateSprintBody(b, n, st, e, g))
    case MoveIssuesToSprint(sp, ks) => Send(POST, Agile(c, "/sprint/" + Str(sp) + "/issue"), [("issues", ks)])
    case ListBoards => Fetch(Agile(c, "/board"))
    case GetBoard(b) => Fetch(Agile(c, "/board/" + Str(b)))
    case SearchUsers(q) => Request(GET, Api(c, "/user/search"), [("query", q)], None)
    case GetCurrentUser => Fetch(Api(c, "/myself"))
    case GetCustomFields => Fetch(Api(c, "/field"))
  }

  /** Every POST and PUT carries a JSON body; no GET or DELETE does */
  lemma WritesCarryBodies(c: Client, call: Call)
    ensures var r := RequestOf(c, call); r.body.Some? <==> r.verb == POST || r.verb == PUT
  {
  }

  // ------------------------------------------------- issue description text

  /** `s` occurs in `t` as a contiguous substring */
  predicate Substring(s: string, t: string) {
    exists i :: 0 <= i <= |t| && s <= t[i..]
  }

  /** `key in container`: membership of a key in a dict, of a str in a list,
      of a substring in a str; anything else raises TypeError */
  function Contains(container: Json, key: string): (r: Result<bool>)
    ensures r.Ok? <==> container.JObj? || container.JArr? || container.JStr?
    ensures container.JObj? ==> r == Ok(Has(container.members, key))
  {
    match container
    case JObj(ms) => Ok(Has(ms, key))
    case JArr(items) => Ok(JStr(key) in items)
    case JStr(s) => Ok(Substring(key, s))
    case _ => Err("argument of type '" + TypeName(container) + "' is not iterable")
  }

  /** The issue's description, when the issue is a dict whose `fields` is a
      dict holding `description` */
  function DescriptionOf(issue: Json): Option<Json> {
    if issue.JObj? then
      match Get(issue.members, "fields")
      case Some(JObj(fs)) => Get(fs, "description")
      case _ => None
    else None
  }

  /** `after` is `before` with `fields.description_text` set to `text`:
      every other key, at the top and inside `fields`, reads as before and
      the top-level keys keep their order */
  ghost predicate Augmented(before: Json, after: Json, text: string) {
    && before.JObj? && after.JObj?
    && Keys(after.members) == Keys(before.members)
    && (forall k :: k != "fields" ==> Get(after.members, k) == Get(before.members, k))
    && (match (Get(before.members, "fields"), Get(after.members, "fields"))
        case (Some(JObj(fs)), Some(JObj(fs'))) =>
          && Get(fs', "description_text") == Some(JStr(text))
          && (forall k :: k != "description_text" ==> Get(fs', k) == Get(fs, k))
        case _ => false)
  }

  /** What `get_issue` does to the decoded issue: when `fields.description`
      exists and is truthy, the plain text extracted from it is stored as
      `fields.description_text`; the membership tests and lookups on the way
      raise as Python's would on a value of the wrong type */
  function WithDescriptionText(data: Json): (r: Result<Json>)
    ensures DescriptionOf(data).Some? && Truthy(DescriptionOf(data).value) ==>
      var extracted := Adf.Extract(DescriptionOf(data).value);
      && (r.Ok? <==> extracted.Ok?)
      && (r.Ok? ==> Augmented(data, r.value, extracted.value))
      && (r.Err? ==> r.error == extracted.error)
    ensures DescriptionOf(data).Some? && !Truthy(DescriptionOf(data).value) ==> r == Ok(data)
    ensures data.JObj? && !Has(data.members, "fields") ==> r == Ok(data)
    ensures (data.JObj? && Get(data.members, "fields").Some? && Get(data.members, "fields").value.JObj?
             && DescriptionOf(data).None?) ==> r == Ok(data)
  {
    var hasFields :- Contains(data, "fields");
    if !hasFields then Ok(data)
    else
      var fields :- Subscript(data, "fields");
      var hasDescription :- Contains(fields, "description");
      if !hasDescription then Ok(data)
      else
        var description :- Subscript(fields, "description");
        if !Truthy(description) then Ok(data)
        else
          var text :- Adf.Extract(description);
          var fields' := Put(fields.members, "description_text", JStr(text));
          Ok(JObj(Put(data.members, "fields", JObj(fields'))))
  }

  // ---------------------------------------------------------- custom fields

  /** `field.get('custom', False)` is truthy: the field counts as custom */
  predicate IsCustom(field: Json) {
    field.JObj? && Truthy(FieldOr(field.members, "custom", JBool(false)))
  }

  /** A field the filter handles without raising: a dict, whose `schema`,
      when it is custom, is a dict or absent */
  predicate Admissible(field: Json) {
    field.JObj? && (IsCustom(field) ==> FieldOr(field.members, "schema", JObj([])).JObj?)
  }

  /** The summary appended for a custom field: its id and name (None when
      absent), its description ('' when absent), the `type` of its schema
      ('unknown' when absent) and its custom flag */
  function CustomSummary(field: Members): (r: Result<Json>)
    ensures r.Ok? <==> FieldOr(field, "schema", JObj([])).JObj?
    ensures r.Ok? ==> r.value.JObj? && Get(r.value.members, "custom") == Some(FieldOr(field, "custom", JBool(false)))
    ensures r.Ok? ==> Get(r.value.members, "id") == Some(Field(field, "id"))
    ensures r.Ok? ==> Get(r.value.members, "description") == Some(FieldOr(field, "description", JStr("")))
    ensures r.Ok? ==> Get(r.value.members, "name") == Some(Field(field, "name"))
    ensures r.Ok? ==>
      Get(r.value.members, "type") == Some(FieldOr(FieldOr(field, "schema", JObj([])).members, "type", JStr("unknown")))
  {
    var kind :- DictGet(FieldOr(field, "schema", JObj([])), "type", JStr("unknown"));
    var ks := ["id", "name", "description", "type", "custom"];
    var vs := [Field(field, "id"), Field(field, "name"), FieldOr(field, "description", JStr("")), kind,
               FieldOr(field, "custom", JBool(false))];
    var ps := [true, true, true, true, true];
    assert Distinct(ks);
    ObjectGet(ks, vs, ps, 0);
    ObjectGet(ks, vs, ps, 1);
    ObjectGet(ks, vs, ps, 2);
    ObjectGet(ks, vs, ps, 3);
    ObjectGet(ks, vs, ps, 4);
    Ok(JObj(Object(ks, vs, ps)))
  }

  /** What one iteration of the loop of `get_custom_fields` appends: the
      field's summary when it is custom, nothing otherwise. A field that is
      not a dict makes `.get` raise AttributeError, as does a custom field
      whose schema is not a dict. */
  function Contribution(field: Json): (r: Result<seq<Json>>)
    ensures r.Ok? <==> Admissible(field)
    ensures r.Ok? && IsCustom(field) ==> r.value == [CustomSummary(field.members).value]
    ensures r.Ok? && !IsCustom(field) ==> r.value == []
  {
    var custom :- DictGet(field, "custom", JBool(false));
    if Truthy(custom) then
      var summary :- CustomSummary(field.members);
      Ok([summary])
    else Ok([])
  }

  /** The loop of `get_custom_fields`: each field's contribution in turn,
      stopping at the first field that raises */
  function CustomFields(fields: seq<Json>): (r: Result<seq<Json>>)
    ensures r.Ok? <==> forall i :: 0 <= i < |fields| ==> Admissible(fields[i])
  {
    Collect(Contribution, fields)
  }

  /** The object `get_custom_fields` builds from the field count, the
      custom summaries and the field list */
  function FieldReport(total: nat, custom: seq<Json>, fields: Json): (o: Json)
    ensures o.JObj?
    ensures Get(o.members, "total_fields") == Some(JInt(total))
    ensures Get(o.members, "custom_fields_count") == Some(JInt(|custom|))
    ensures Get(o.members, "custom_fields") == Some(JArr(custom))
    ensures Get(o.members, "all_fields") == Some(fields)
  {
    var ks := ["total_fields", "custom_fields_count", "custom_fields", "all_fields"];
    var vs := [JInt(total), JInt(|custom|), JArr(custom), fields];
    var ps := [true, true, true, true];
    assert Distinct(ks);
    ObjectGet(ks, vs, ps, 0);
    ObjectGet(ks, vs, ps, 1);
    ObjectGet(ks, vs, ps, 2);
    ObjectGet(ks, vs, ps, 3);
    JObj(Object(ks, vs, ps))
  }

  /** The object `get_custom_fields` returns for the decoded field list:
      `total_fields` is `len(fields)`, `custom_fields` the summaries of the
      custom fields and `custom_fields_count` their number; it raises
      when the fields cannot be iterated or one of them cannot be filtered */
  function CustomFieldsReport(fields: Json): (r: Result<Json>)
    ensures r.Ok? <==> Iterate(fields).Ok? && CustomFields(Iterate(fields).value).Ok?
    ensures r.Ok? ==> Len(fields).Ok? && r.value.JObj?
    ensures r.Ok? ==> Get(r.value.members, "custom_fields") == Some(JArr(CustomFields(Iterate(fields).value).value))
    ensures r.Ok? ==> Get(r.value.members, "total_fields") == Some(JInt(Len(fields).value))
    ensures r.Ok? ==> Get(r.value.members, "all_fields") == Some(fields)
    ensures r.Ok? ==>
      && Get(r.value.members, "custom_fields_count") == Some(JInt(|CustomFields(Iterate(fields).value).value|))
      && |CustomFields(Iterate(fields).value).value| <= Len(fields).value
  {
    var items :- Iterate(fields);
    var custom :- CustomFields(items);
    CustomFieldsAtMost(items);
    Ok(FieldReport(|items|, custom, fields))
  }

  /** The filter works field by field: the result for a concatenation is the
      result for the first part followed by the result for the second, so the
      summaries come out in input order */
  lemma CustomFieldsAppend(a: seq<Json>, b: seq<Json>)
    requires CustomFields(a).Ok? && CustomFields(b).Ok?
    ensures CustomFields(a + b) == Ok(CustomFields(a).value + CustomFields(b).value)
  {
    CollectAppend(Contribution, a, b);
  }

  /** A single field contributes its summary when it is custom and nothing
      otherwise */
  lemma CustomFieldsOne(field: Json)
    requires Admissible(field)
    ensures IsCustom(field) ==> CustomFields([field]) == Ok([CustomSummary(field.members).value])
    ensures !IsCustom(field) ==> CustomFields([field]) == Ok([])
  {
    CollectOne(Contribution, field);
  }

  /** The first field's contribution followed by the rest's */
  lemma CustomFieldsStep(fields: seq<Json>)
    requires |fields| > 0 && CustomFields(fields).Ok?
    ensures Contribution(fields[0]).Ok? && CustomFields(fields[1..]).Ok?
    ensures CustomFields(fields).value == Contribution(fields[0]).value + CustomFields(fields[1..]).value
  {
    assert forall i :: 1 <= i < |fields| ==> fields[i] == fields[1..][i - 1];
  }

  /** Every summary in the result belongs to a custom field */
  lemma {:induction false} CustomSummariesAreCustom(fields: seq<Json>)
    requires CustomFields(fields).Ok?
    ensures forall s :: s in CustomFields(fields).value ==> s.JObj? && Truthy(Field(s.members, "custom"))
  {
    if |fields| > 0 {
      CustomFieldsStep(fields);
      CustomSummariesAreCustom(fields[1..]);
    }
  }

  /** There are never more summaries than fields */
  lemma {:induction false} CustomFieldsAtMost(fields: seq<Json>)
    requires CustomFields(fields).Ok?
    ensures |CustomFields(fields).value| <= |fields|
  {
    if |fields| > 0 {
      CustomFieldsStep(fields);
      CustomFieldsAtMost(fields[1..]);
    }
  }

  /** When every field is custom, every field has its summary */
  lemma {:induction false} CustomFieldsAllCustom(fields: seq<Json>)
    requires CustomFields(fields).Ok?
    requires forall i :: 0 <= i < |fields| ==> IsCustom(fields[i])
    ensures |CustomFields(fields).value| == |fields|
  {
    if |fields| > 0 {
      CustomFieldsStep(fields);
      assert IsCustom(fields[0]);
      assert |Contribution(fields[0]).value| == 1;
      var rest := fields[1..];
      assert forall i :: 0 <= i < |rest| ==> IsCustom(rest[i]) by {
        forall i | 0 <= i < |rest| ensures IsCustom(rest[i]) {
          assert rest[i] == fields[i + 1];
        }
      }
      CustomFieldsAllCustom(rest);
    }
  }

  /** When no field is custom, the result is empty */
  lemma {:induction false} CustomFieldsNoneCustom(fields: seq<Json>)
    requires CustomFields(fields).Ok?
    requires forall i :: 0 <= i < |fields| ==> !IsCustom(fields[i])
    ensures CustomFields(fields).value == []
  {
    if |fields| > 0 {
      CustomFieldsStep(fields);
      assert !IsCustom(fields[0]);
      assert forall i :: 0 <= i < |fields[1..]| ==> fields[1..][i] == fields[i + 1];
      CustomFieldsNoneCustom(fields[1..]);
    }
  }

  // -------------------------------------------------------------- responses

  /** `{"status": status, k: v}` */
  function Ack(status: string, k: string, v: Json): (j: Json)
    requires k != "status"
    ensures j.JObj? && Keys(j.members) == ["status", k]
    ensures Get(j.members, "status") == Some(JStr(status))
    ensures Get(j.members, k) == Some(v)
  {
    var ks := ["status", k];
    var vs := [JStr(status), v];
    var ps := [true, true];
    ObjectGet(ks, vs, ps, 0);
    ObjectGet(ks, vs, ps, 1);
    ObjectKeys(ks, vs, ps);
    JObj(Object(ks, vs, ps))
  }

  /** `{"status": status, k1: v1, k2: v2}` */
  function Ack2(status: string, k1: string, v1: Json, k2: string, v2: Json): (j: Json)
    requires Distinct(["status", k1, k2])
    ensures j.JObj? && Keys(j.members) == ["status", k1, k2]
    ensures Get(j.members, "status") == Some(JStr(status))
    ensures Get(j.members, k1) == Some(v1)
    ensures Get(j.members, k2) == Some(v2)
  {
    var ks := ["status", k1, k2];
    var vs := [JStr(status), v1, v2];
    var ps := [true, true, true];
    ObjectGet(ks, vs, ps, 0);
    ObjectGet(ks, vs, ps, 1);
    ObjectGet(ks, vs, ps, 2);
    ObjectKeys(ks, vs, ps);
    JObj(Object(ks, vs, ps))
  }

  /** The methods that return a fixed status object instead of the response body */
  predicate Acknowledged(call: Call) {
    call.UpdateIssue? || call.DeleteIssue? || call.AssignIssue? || call.TransitionIssue?
    || call.DeleteComment? || call.MoveIssuesToSprint?
  }

  /** The status word each acknowledged method reports */
  function StatusWord(call: Call): string
    requires Acknowledged(call)
  {
    match call
    case UpdateIssue(_, _, _, _, _, _, _, _, _, _) => "updated"
    case DeleteIssue(_) => "deleted"
    case AssignIssue(_, _) => "assigned"
    case TransitionIssue(_, _, _) => "transitioned"
    case DeleteComment(_, _) => "deleted"
    case MoveIssuesToSprint(_, _) => "moved"
  }

  /** The status object an acknowledged method returns once its request has
      succeeded. `move_issues_to_sprint` reports `len(issue_keys)`, which
      raises only now, after the request, when the keys have no length. */
  function Acknowledgement(call: Call): (r: Result<Json>)
    requires Acknowledged(call)
    ensures r.Ok? <==> !call.MoveIssuesToSprint? || Len(call.issueKeys).Ok?
    ensures r.Ok? ==> r.value.JObj? && Get(r.value.members, "status") == Some(JStr(StatusWord(call)))
    ensures !call.MoveIssuesToSprint? ==> r.Ok? && Get(r.value.members, "issue_key") == Some(call.issueKey)
    ensures call.MoveIssuesToSprint? && r.Ok? ==>
      && Get(r.value.members, "sprint_id") == Some(call.sprintId)
      && Get(r.value.members, "issue_count") == Some(JInt(Len(call.issueKeys).value))
    ensures call.AssignIssue? ==> Get(r.value.members, "assignee_id") == Some(call.assigneeId)
    ensures call.DeleteComment? ==> Get(r.value.members, "comment_id") == Some(call.commentId)
    ensures r.Ok? && (call.UpdateIssue? || call.DeleteIssue? || call.TransitionIssue?) ==>
      Keys(r.value.members) == ["status", "issue_key"]
    ensures call.AssignIssue? ==> Keys(r.value.members) == ["status", "issue_key", "assignee_id"]
    ensures call.DeleteComment? ==> Keys(r.value.members) == ["status", "issue_key", "comment_id"]
    ensures call.MoveIssuesToSprint? && r.Ok? ==> Keys(r.value.members) == ["status", "sprint_id", "issue_count"]
  {
    match call
    case UpdateIssue(k, _, _, _, _, _, _, _, _, _) => Ok(Ack("updated", "issue_key", k))
    case DeleteIssue(k) => Ok(Ack("deleted", "issue_key", k))
    case AssignIssue(k, a) =>
      assert Distinct(["status", "issue_key", "assignee_id"]);
      Ok(Ack2("assigned", "issue_key", k, "assignee_id", a))
    case TransitionIssue(k, _, _) => Ok(Ack("transitioned", "issue_key", k))
    case DeleteComment(k, id) =>
      assert Distinct(["status", "issue_key", "comment_id"]);
      Ok(Ack2("deleted", "issue_key", k, "comment_id", id))
    case MoveIssuesToSprint(sp, ks) => MovedAck(sp, ks)
  }

  /** `{"status": "moved", "sprint_id": sprint_id, "issue_count": len(issue_keys)}`,
      raising when `issue_keys` has no length */
  function MovedAck(sprintId: Json, issueKeys: Json): (r: Result<Json>)
    ensures r.Ok? <==> Len(issueKeys).Ok?
    ensures r.Err? ==> r.error == Len(issueKeys).error
    ensures r.Ok? ==>
      && r.value.JObj? && Keys(r.value.members) == ["status", "sprint_id", "issue_count"]
      && Get(r.value.members, "status") == Some(JStr("moved"))
      && Get(r.value.members, "sprint_id") == Some(sprintId)
      && Get(r.value.members, "issue_count") == Some(JInt(Len(issueKeys).value))
  {
    var count :- Len(issueKeys);
    assert Distinct(["status", "sprint_id", "issue_count"]);
    Ok(Ack2("moved", "sprint_id", sprintId, "issue_count", JInt(count)))
  }

  /** What a method that sent one request returns for the response it got:
      a failed request raises for every method; then the method either
      returns the decoded body, post-processes it (`get_issue`,
      `get_custom_fields`) or ignores it and acknowledges */
  function Interpret(call: Call, resp: Response): (r: Result<Json>)
    ensures resp.Failed? ==> r == Err(resp.message)
    ensures resp.Received? && Acknowledged(call) ==> r == Acknowledgement(call)
    ensures resp.Received? && !Acknowledged(call) && resp.body.Err? ==> r == resp.body
    ensures resp.Received? && resp.body.Ok? && !Acknowledged(call) && !call.GetIssue? && !call.GetCustomFields? ==>
      r == resp.body
    ensures resp.Received? && resp.body.Ok? && call.GetIssue? ==> r == WithDescriptionText(resp.body.value)
    ensures resp.Received? && resp.body.Ok? && call.GetCustomFields? ==> r == CustomFieldsReport(resp.body.value)
  {
    if Acknowledged(call) then
      var _ :- Acknowledge(resp, JNull);
      Acknowledgement(call)
    else
      var data :- JsonBody(resp);
      match call
      case GetIssue(_) => WithDescriptionText(data)
      case GetCustomFields => CustomFieldsReport(data)
      case _ => Ok(data)
  }

  /** The status object never depends on what the server answered */
  lemma AcknowledgementIgnoresBody(call: Call, a: Result<Json>, b: Result<Json>)
    requires Acknowledged(call)
    ensures Interpret(call, Received(a)) == Interpret(call, Received(b))
  {
  }

  // ------------------------------------------------------------ transitions

  /** `transition["name"].lower() == transition_name.lower()`, evaluated left
      to right: the entry's name is looked up and lowered before the wanted
      name is */
  function NameMatches(t: Json, name: Json): (r: Result<bool>)
    ensures r.Ok? <==> t.JObj? && Has(t.members, "name") && Field(t.members, "name").JStr? && name.JStr?
    ensures r.Ok? ==> r.value == (Lower(Field(t.members, "name").s) == Lower(name.s))
  {
    var entryName :- Subscript(t, "name");
    var lowered :- LowerOf(entryName);
    var wanted :- LowerOf(name);
    Ok(lowered == wanted)
  }

  /** The search loop of `transition_issue`: the id of the first entry
      whose name matches (its `["id"]` lookup may raise), None when the loop
      runs out; a failing comparison stops the search */
  function FindTransition(ts: seq<Json>, name: Json): (r: Result<Option<Json>>)
    ensures r == Ok(None) <==> forall i :: 0 <= i < |ts| ==> NameMatches(ts[i], name) == Ok(false)
    ensures r.Ok? && r.value.Some? ==>
      (exists i :: 0 <= i < |ts| && (forall j :: 0 <= j < i ==> NameMatches(ts[j], name) == Ok(false))
                   && NameMatches(ts[i], name) == Ok(true) && Subscript(ts[i], "id") == Ok(r.value.value))
  {
    First(t => NameMatches(t, name), t => Subscript(t, "id"), ts)
  }

  /** Only the lowered wanted name takes part in the search */
  lemma FindIgnoresCase(ts: seq<Json>, a: string, b: string)
    requires Lower(a) == Lower(b)
    ensures FindTransition(ts, JStr(a)) == FindTransition(ts, JStr(b))
  {
    FirstCongruent(t => NameMatches(t, JStr(a)), t => NameMatches(t, JStr(b)), t => Subscript(t, "id"), ts);
  }

  /** The GET that lists an issue's transitions */
  function TransitionsRequest(c: Client, issueKey: Json): (r: Request)
    ensures r.verb == GET && r.body == None && c.jiraUrl <= r.url
  {
    Fetch(IssueUrl(c, issueKey, "/transitions"))
  }

  /** `response.json()["transitions"]`, searched for `name` */
  function Lookup(resp: Response, name: Json): (r: Result<Option<Json>>)
    ensures resp.Failed? ==> r == Err(resp.message)
    ensures r.Ok? ==> resp.Received? && resp.body.Ok?
    ensures resp.Received? && resp.body.Err? ==> r == Err(resp.body.error)
    ensures resp.Received? && resp.body.Ok? ==>
      var listing := Subscript(resp.body.value, "transitions");
      && (listing.Err? ==> r == Err(listing.error))
      && (listing.Ok? && Iterate(listing.value).Err? ==> r == Err(Iterate(listing.value).error))
      && (listing.Ok? && Iterate(listing.value).Ok? ==> r == FindTransition(Iterate(listing.value).value, name))
  {
    var body :- JsonBody(resp);
    var listing :- Subscript(body, "transitions");
    var ts :- Iterate(listing);
    FindTransition(ts, name)
  }

  /** The ValueError raised when no transition id is found */
  function NotFound(issueKey: Json, name: Json): string {
    "Transition '" + Str(name) + "' not found for issue " + Str(issueKey)
  }

  /** `transition_issue` given a name but no id: list the transitions, take
      the id of the first one whose name matches without regard to case,
      and POST it; when none matches, or the match has a falsy id, raise
      without posting */
  function TransitionByName(c: Client, issueKey: Json, name: Json, send: Transport): (ex: Exchange)
    ensures 1 <= |ex.sent| <= 2 && ex.sent[0] == TransitionsRequest(c, issueKey)
    ensures c.jiraUrl <= ex.sent[0].url && (|ex.sent| == 2 ==> c.jiraUrl <= ex.sent[1].url)
    ensures var found := Lookup(send(TransitionsRequest(c, issueKey)), name);
      |ex.sent| == 2 <==> found.Ok? && found.value.Some? && Truthy(found.value.value)
    ensures |ex.sent| == 2 ==>
      var id := Lookup(send(TransitionsRequest(c, issueKey)), name).value.value;
      ex.sent[1] == Send(POST, IssueUrl(c, issueKey, "/transitions"), TransitionBody(id))
    ensures |ex.sent| == 1 ==> ex.result.Err?
    ensures var found := Lookup(send(TransitionsRequest(c, issueKey)), name);
      found.Err? ==> ex.result == Err(found.error)
    ensures var found := Lookup(send(TransitionsRequest(c, issueKey)), name);
      found.Ok? && (found.value.None? || !Truthy(found.value.value)) ==> ex.result == Err(NotFound(issueKey, name))
    ensures |ex.sent| == 2 ==> ex.result == Acknowledge(send(ex.sent[1]), Ack("transitioned", "issue_key", issueKey))
  {
    var list := TransitionsRequest(c, issueKey);
    match Lookup(send(list), name)
    case Err(e) => Exchange([list], Err(e))
    case Ok(found) =>
      if found.None? || !Truthy(found.value) then Exchange([list], Err(NotFound(issueKey, name)))
      else
        var post := Send(POST, IssueUrl(c, issueKey, "/transitions"), TransitionBody(found.value));
        Exchange([list, post], Acknowledge(send(post), Ack("transitioned", "issue_key", issueKey)))
  }

  // -------------------------------------------------------------- execution

  /** `transition_issue` looks its id up when given a truthy name and a falsy id */
  predicate LooksUp(call: Call) {
    call.TransitionIssue? && Truthy(call.transitionName) && !Truthy(call.transitionId)
  }

  /** Running a client method against a transport: the requests it sends and
      what it returns or raises */
  function Run(c: Client, call: Call, send: Transport): (ex: Exchange)
    ensures 1 <= |ex.sent| <= 2
    ensures c.jiraUrl <= ex.sent[0].url && (|ex.sent| == 2 ==> c.jiraUrl <= ex.sent[1].url)
    ensures !LooksUp(call) ==> ex.sent == [RequestOf(c, call)] && ex.result == Interpret(call, send(RequestOf(c, call)))
    ensures LooksUp(call) ==> ex.sent[0] == TransitionsRequest(c, call.issueKey) && (ex.result.Ok? ==> |ex.sent| == 2)
    ensures LooksUp(call) ==> ex == TransitionByName(c, call.issueKey, call.transitionName, send)
  {
    if LooksUp(call) then TransitionByName(c, call.issueKey, call.transitionName, send)
    else
      var req := RequestOf(c, call);
      Exchange([req], Interpret(call, send(req)))
  }

  // ----------------------------------------------------------------- lemmas

  /** A transition named in a different case is found just the same: the
      requests sent do not depend on the case of the wanted name */
  lemma TransitionNameIgnoresCase(c: Client, issueKey: Json, a: string, b: string, send: Transport)
    requires Lower(a) == Lower(b)
    ensures TransitionByName(c, issueKey, JStr(a), send).sent == TransitionByName(c, issueKey, JStr(b), send).sent
  {
    LookupIgnoresCase(send(TransitionsRequest(c, issueKey)), a, b);
  }

  lemma LookupIgnoresCase(resp: Response, a: string, b: string)
    requires Lower(a) == Lower(b)
    ensures Lookup(resp, JStr(a)) == Lookup(resp, JStr(b))
  {
    if resp.Received? && resp.body.Ok? {
      var listing := Subscript(resp.body.value, "transitions");
      if listing.Ok? && Iterate(listing.value).Ok? {
        FindIgnoresCase(Iterate(listing.value).value, a, b);
      }
    }
  }

  /** `start_at` is accepted and has no effect on the request or the result */
  lemma SearchIgnoresStartAt(c: Client, jql: Json, maxResults: Json, s: Json, s': Json, fields: Json, send: Transport)
    ensures Run(c, SearchIssues(jql, maxResults, s, fields), send) == Run(c, SearchIssues(jql, maxResults, s', fields), send)
  {
    var a, b := SearchIssues(jql, maxResults, s, fields), SearchIssues(jql, maxResults, s', fields);
    assert RequestOf(c, a) == RequestOf(c, b);
    var resp := send(RequestOf(c, a));
    assert Interpret(a, resp) == Interpret(b, resp);
  }

  /** A description written the way `create_issue` and `update_issue` write
      it reads back, through `get_issue`, as the same text */
  lemma DescriptionRoundTrip(data: Json, text: string)
    requires DescriptionOf(data) == Some(Adf.Paragraph(JStr(text)))
    ensures WithDescriptionText(data).Ok?
    ensures Augmented(data, WithDescriptionText(data).value, text)
  {
    Adf.ParagraphRoundTrip(text);
  }
}
