# jira-mcp, modelled in Dafny

This project models the two MCP (Model Context Protocol) servers of the
jira-mcp repository and the REST clients behind them:

- `src/jira_client.py`: a JIRA Cloud client. Each method sends one request,
  or two for a transition looked up by name, and returns the decoded JSON
  body or a fixed status object. It reshapes the results of `get_issue` and
  `get_custom_fields`.
- `src/bitbucket_client.py`: a Bitbucket Cloud client. Each method sends
  exactly one request.
- `src/server.py` and `bitbucket-mcp/src/server.py`: `list_tools` announces
  each tool with a JSON input schema. `call_tool` dispatches a tool name to
  the client method of the same name and answers with a single text item:
  the JSON result, `Error: <message>`, or `Unknown tool: <name>`.

The model is functional:

- The transport is a parameter `Request -> Response`. A response is either a
  failure, standing for a network error or a status rejected by
  `raise_for_status()`, or a body that decodes to JSON or fails to decode.
- A client method becomes a function from its arguments and the transport
  to an `Exchange`: the requests it sent, in order, and its outcome.
- A raised exception becomes `Err(str(e))`.
- Python values in JSON are the `Json` datatype: `None` is `JNull` and a
  dict is an ordered list of members.

Modules, one per file:

| file | module | what it holds |
|---|---|---|
| wrappers.dfy | Wrappers | `Option`, `Result`, and the loops used for field filtering and transition lookup |
| json.dfy | Json | JSON values and the Python built-ins the sources rely on: truthiness, `dict.get`, `len`, iteration, subscripting, `str.lower` |
| http.dfy | Http | requests, responses, the transport, and `raise_for_status()` followed by `.json()` |
| adf.dfy | Adf | the one-paragraph Atlassian Document Format wrapper, the text extractor and a reference reading of documents |
| signatures.dfy | Signatures | Python method signatures and positional argument binding |
| tools.dfy | Tools | tool schemas, the argument reads of a `call_tool` branch, and the text replies |
| jira_client.dfy | JiraClient | every method of the JIRA client |
| bitbucket_client.dfy | BitbucketClient | every method of the Bitbucket client |
| jira_tools.dfy, bitbucket_tools.dfy | JiraTools, BitbucketTools | every tool of each server, with its schema, its branch and the method it calls |
| jira_server.dfy, bitbucket_server.dfy | JiraServer, BitbucketServer | `call_tool` of each server |

Each tool is defined as a value of a subset type. Its constraint checks
three things when the tool is written down:

- the branch tests the tool's own name;
- the branch reads exactly the properties the schema declares, in the
  schema's order: the required ones with `arguments[k]`, in the order of
  `required`, and the rest with `arguments.get(k, d)`, where `d` is the
  declared default;
- the values read fit the signature of the client method of that name.

The server lemmas build on these per-tool facts.

## Model

| member | source | states |
|---|---|---|
| Signatures.Positional | src/server.py:344-439 | Python's positional binding. Binding succeeds exactly when no more values are passed than there are parameters and every parameter left over has a default. The bound values are the ones passed, followed by the defaults of the remaining parameters |
| Json.Iterate | src/jira_client.py:585 | `for x in j` succeeds exactly on lists, dicts and strings. A list yields its items; a dict or a string yields only strings |
| Json.Len | src/jira_client.py:515 | `len(j)` is defined exactly where iteration is, and counts what iteration yields |
| Json.Subscript | src/jira_client.py:366-370 | `j[key]` succeeds exactly on a dict holding `key` and returns the value stored there. On a dict without the key it raises KeyError naming the key |
| Json.LowerOf | src/jira_client.py:369 | `j.lower()` succeeds exactly on strings and returns the lower-cased string |
| Json.DictGet | src/jira_client.py:585-591 | `j.get(key, default)` succeeds exactly on dicts. It returns the stored value when the key is present and the default otherwise |
| Adf.Paragraph | src/jira_client.py:200-209 | The one-paragraph document wrapping a value is truthy, so it is always sent when built |
| Adf.JoinParts | src/jira_client.py:50 | `' '.join(parts)` succeeds exactly when every part is a string. Otherwise it raises TypeError naming a part that is not a string, with its index |
| Adf.ExtractMatchesReference | src/jira_client.py:27-50 | For any well-formed document tree, `_extract_text_from_doc` of its JSON encoding equals a reference definition: the texts of its text nodes in document order, joined by single spaces |
| Adf.ExtractListMatchesReference | src/jira_client.py:27-50 | The same agreement for a list of documents, which the extractor walks item by item |
| Adf.ParagraphRoundTrip | src/jira_client.py:200-209 | Extracting the text of the paragraph wrapper built around a string gives back that string |
| Adf.ParagraphOfNonString | src/jira_client.py:27-50 | When the wrapped value is not a string, the extractor raises the TypeError of `' '.join` for item 0 |
| Adf.MixedContentExample | src/jira_client.py:38-48 | Non-text nodes contribute nothing: text `a`, an emoji node and text `b` extract to `a b` |
| JiraClient.StripTrailingSlashes | src/jira_client.py:18 | `rstrip('/')` yields a prefix of the input that does not end in `/`, and everything it removed was `/` |
| JiraClient.NewClient | src/jira_client.py:10-24 | The client's base URL is a prefix of the configured URL, and only `/` characters were removed from its end: it is the configured URL without its trailing slashes |
| JiraClient.Invoke | src/server.py:344-439 | A client call exists exactly when the name is a client method and the values bind to its signature positionally; Python raises TypeError otherwise. The call has that name and carries the bound values |
| JiraClient.CreateProjectBody | src/jira_client.py:97-105 | The `create_project` payload always holds `key`, `name` and `projectTypeKey`. It holds `leadAccountId` and `description` exactly when those arguments are truthy, and no other key |
| JiraClient.SearchBody | src/jira_client.py:131-139 | The search payload holds `jql` and `maxResults`, and `fields` exactly when it is truthy. It never holds `startAt` or any other key |
| JiraClient.SearchIgnoresStartAt | src/jira_client.py:116-146 | `search_issues` sends the same requests and returns the same result whatever `start_at` is |
| JiraClient.CreateIssueFields | src/jira_client.py:193-215 | The `create_issue` fields always hold the project key, summary and issue type. Description, priority, assignee and labels are present exactly when truthy, and the description is wrapped as a document paragraph. No other key is sent |
| JiraClient.UpdateIssueFields | src/jira_client.py:256-306 | `update_issue` sends summary, description, priority and assignee only when truthy. It sends labels and the four custom fields (10105 story points, 10106 sprint, 10103 and 10104 as paragraphs) whenever they are not None, including falsy values such as `[]` or `0` |
| JiraClient.UpdateIssueFieldsHoldsOnlyGiven | src/jira_client.py:256-306 | The `update_issue` fields hold no key beyond those nine, and each only under its own condition (truthy, or not None) |
| JiraClient.UpdateIssueWithNothing | src/jira_client.py:256-308 | An update with every optional argument None sends an empty `fields` object |
| JiraClient.CreateSprintBody | src/jira_client.py:479-488 | The sprint payload holds `name` and `originBoardId`. It holds `startDate`, `endDate` and `goal` exactly when truthy, and no other key |
| JiraClient.RequestOf | src/jira_client.py:54-568 | Every request of a single-request method goes under the client's base URL. Only `search_users` sends query parameters |
| JiraClient.WritesCarryBodies | src/jira_client.py:77-515 | A request carries a JSON body exactly when it is a POST or a PUT; GETs and DELETEs send none |
| JiraClient.Contains | src/jira_client.py:162 | Python's `in` succeeds on dicts, lists and strings only; on a dict it tests for the key |
| JiraClient.WithDescriptionText | src/jira_client.py:161-167 | When the issue has a truthy `fields.description`, the result is the issue with only `fields.description_text` added, set to the extracted text, and any extraction error propagates. Without `fields`, without a description, or with a falsy one, the issue comes back unchanged |
| JiraClient.DescriptionRoundTrip | src/jira_client.py:161-167 | An issue whose description is the paragraph wrapper around a string comes back with that string as `description_text` |
| JiraClient.CustomSummary | src/jira_client.py:586-592 | The summary of a custom field carries its `id`, its `name`, its `description` (default `''`), its `type` and its `custom` flag. `type` is the `schema`'s `type`, or `'unknown'` when the schema or its type is missing. It raises exactly when the field's `schema` is present but not a dict |
| JiraClient.Contribution | src/jira_client.py:585-592 | One loop step succeeds exactly when the field is a dict whose schema can be read if it is custom. It adds the field's summary exactly when the field is custom, and nothing otherwise |
| JiraClient.CustomFields | src/jira_client.py:583-592 | The filtering loop succeeds exactly when every field passes its step |
| JiraClient.CustomFieldsAppend | src/jira_client.py:585-592 | The loop works field by field: the result for a concatenation is the concatenation of the results |
| JiraClient.CustomFieldsStep | src/jira_client.py:585-592 | The result is the first field's contribution followed by the result for the rest |
| JiraClient.CustomSummariesAreCustom | src/jira_client.py:585-592 | Every summary collected is a dict whose `custom` flag is truthy |
| JiraClient.CustomFieldsAtMost | src/jira_client.py:583-597 | There are never more custom summaries than fields |
| JiraClient.CustomFieldsAllCustom | src/jira_client.py:585-592 | When every field is custom, there is one summary per field |
| JiraClient.CustomFieldsNoneCustom | src/jira_client.py:585-592 | When no field is custom, the list of summaries is empty |
| JiraClient.FieldReport | src/jira_client.py:594-599 | The returned object's `custom_fields_count` is the length of its `custom_fields` list, and `total_fields` and `all_fields` are the given total and fields |
| JiraClient.CustomFieldsReport | src/jira_client.py:572-600 | `get_custom_fields` fails exactly when the decoded body cannot be iterated or one field cannot be filtered. Otherwise `custom_fields` holds the filtered summaries, `total_fields` is `len(fields)`, `all_fields` is the body itself, and `custom_fields_count` is exactly the number of summaries in `custom_fields`, never more than the total |
| JiraClient.Acknowledgement | src/jira_client.py:314-515 | The six status-returning methods return `status` (`updated`, `deleted`, `assigned`, `transitioned`, `moved`) together with the issue key. `assign_issue` adds `assignee_id` and `delete_comment` adds `comment_id`. `move_issues_to_sprint` returns the sprint id and `issue_count = len(issue_keys)` instead, and raises if `issue_keys` has no length. Each reply has exactly these keys, in this order |
| JiraClient.MovedAck | src/jira_client.py:515 | `move_issues_to_sprint` returns exactly `status: moved`, the sprint id and `issue_count = len(issue_keys)`, in this order, and raises the error of `len` when `issue_keys` has none |
| JiraClient.Interpret | src/jira_client.py:54-600 | A failed response raises its message. A status-returning method ignores the body. `get_issue` adds the description text and `get_custom_fields` builds its report. Every other method returns the decoded body |
| JiraClient.AcknowledgementIgnoresBody | src/jira_client.py:313-327 | What a status-returning method answers does not depend on what the server sent back |
| JiraClient.NameMatches | src/jira_client.py:369 | Comparing a transition's name succeeds exactly when the transition is a dict with a string `name` and the wanted name is a string. It holds exactly when the two lower-cased names are equal |
| JiraClient.FindTransition | src/jira_client.py:368-371 | The lookup finds nothing exactly when no transition matches. Otherwise it returns the `id` of the first matching transition |
| JiraClient.FindIgnoresCase | src/jira_client.py:369 | Looking up names that agree once lower-cased gives the same result |
| JiraClient.TransitionsRequest | src/jira_client.py:362-364 | The lookup request is a bodyless GET under the base URL |
| JiraClient.Lookup | src/jira_client.py:365-371 | A failed lookup response raises its message. Otherwise the lookup reads `json()["transitions"]`, propagates the error of a missing or non-iterable listing, and is FindTransition over the listing |
| JiraClient.LookupIgnoresCase | src/jira_client.py:361-371 | The lookup's outcome is the same for two names that agree once lower-cased |
| JiraClient.TransitionByName | src/jira_client.py:361-382 | A transition by name first sends the lookup GET. It sends the transition POST, with the id it found, exactly when the lookup succeeded with a truthy id. Otherwise it sends nothing more: it re-raises the lookup's error, or raises `Transition '<name>' not found for issue <key>` when no truthy id was found. After the POST it returns the `transitioned` acknowledgement of the POST's response |
| JiraClient.TransitionNameIgnoresCase | src/jira_client.py:361-382 | Transition names are matched ignoring case: two names that agree once lower-cased send the same requests |
| JiraClient.Run | src/jira_client.py:54-603 | A JIRA method sends one or two requests, all under the base URL. Two are possible only for a transition named without an id: it sends the lookup first and succeeds only after sending both. Such a call runs exactly as TransitionByName |
| BitbucketClient.Endpoint | src/bitbucket_client.py:11 | Every endpoint lies under `https://api.bitbucket.org/2.0` |
| BitbucketClient.Invoke | bitbucket-mcp/src/server.py:453-594 | A client call exists exactly when the name is a client method and the values bind to its signature positionally. The call has that name and carries the bound values |
| BitbucketClient.CreateRepositoryBody | src/bitbucket_client.py:76-83 | The repository payload always has `scm: git` and `is_private`. It holds `description` and `project.key` exactly when those arguments are truthy, and no other key |
| BitbucketClient.BranchRef | src/bitbucket_client.py:178-179 | A branch reference is `{"branch": {"name": ...}}` |
| BitbucketClient.CreatePullRequestBody | src/bitbucket_client.py:176-183 | The pull request payload holds the title, both branch references and `close_source_branch`. It holds `description` exactly when truthy, and no other key |
| BitbucketClient.UpdatePullRequestBody | src/bitbucket_client.py:212-216 | The update payload holds `title` and `description` exactly when each is truthy, and no other key |
| BitbucketClient.MergeBody | src/bitbucket_client.py:245-247 | The merge payload is `{"type": strategy}`, plus `message` exactly when it is truthy, and no other key |
| BitbucketClient.CreateBranchBody | src/bitbucket_client.py:405-408 | The branch payload holds exactly `name` and `target.hash`, in that order |
| BitbucketClient.CreateIssueBody | src/bitbucket_client.py:557-563 | The issue payload holds the title, kind and priority. It holds `content.raw` exactly when the description is truthy, and no other key |
| BitbucketClient.UpdateIssueBody | src/bitbucket_client.py:598-608 | The issue update payload holds each of title, `content.raw`, state, kind and priority exactly when that argument is truthy, and no other key |
| BitbucketClient.UpdatesWithNothing | src/bitbucket_client.py:212-216 | Updating a pull request or an issue with every optional argument None sends `{}` |
| BitbucketClient.StateFilter | src/bitbucket_client.py:128 | The listing query is `{"state": state}` when the state is truthy and empty otherwise |
| BitbucketClient.CommitsUrl | src/bitbucket_client.py:450-452 | The commits URL gets `/<branch>` appended exactly when a truthy branch is given |
| BitbucketClient.RequestOf | src/bitbucket_client.py:29-638 | Every request goes under the Bitbucket API base |
| BitbucketClient.RepositoryListingPath | src/bitbucket_client.py:43-54 | `list_repositories` addresses `/repositories/{workspace}` under the base |
| BitbucketClient.WorkspacePaths | src/bitbucket_client.py:619-640 | `list_workspaces` and `get_workspace` address `/workspaces` and `/workspaces/{workspace}` under the base |
| BitbucketClient.ResourcePaths | src/bitbucket_client.py:29-615 | Every other method addresses a resource under `/repositories/{workspace}/{repo_slug}`, and the eight methods that name a pull request one under `/pullrequests/{pr_id}` of that repository |
| BitbucketClient.CommentBody | src/bitbucket_client.py:332-352 | `add_pr_comment` POSTs the body `{"content": {"raw": content}}` |
| BitbucketClient.BodylessPosts | src/bitbucket_client.py:256-291 | The only POSTs without a body are decline and approve |
| BitbucketClient.QueryParameters | src/bitbucket_client.py:92-512 | Query parameters are sent exactly by `search_code`, and by the pull request and issue listings when a truthy state is given |
| BitbucketClient.ApprovalResource | src/bitbucket_client.py:275-311 | Approving and unapproving address the same `/approve` resource, with POST and DELETE respectively |
| BitbucketClient.Interpret | src/bitbucket_client.py:29-641 | A failed response raises its message. `unapprove_pull_request` and `delete_branch` answer their fixed status objects. Every other method returns the decoded body |
| BitbucketClient.AcknowledgementIgnoresBody | src/bitbucket_client.py:294-311 | What unapprove and delete-branch answer does not depend on the response body |
| BitbucketClient.Run | src/bitbucket_client.py:29-641 | Every Bitbucket method sends exactly its one request, under the API base, and interprets that request's response |
| Tools.Required | src/server.py:344 | `arguments[k]` returns the argument when present and raises the KeyError naming `k` otherwise |
| Tools.Optional | src/server.py:358-359 | `arguments.get(k, d)` returns the argument when present, even a null one, and `d` otherwise |
| Tools.ReadAll | src/server.py:344-439 | Reading a branch's arguments succeeds exactly when every key it reads with `arguments[k]` is present. Each value read is the argument, or the default for a `.get` read of a missing key |
| Tools.ReadAllRaises | src/server.py:344-439 | The reads raise exactly when a key read with `arguments[k]` is missing, and the KeyError names the first missing one in reading order |
| Tools.DeclaredRaises | src/server.py:344-439 | For a branch that reads what its schema declares, a KeyError is raised exactly when a required property is missing, naming the first missing one in `required` order |
| Tools.ReadsFollowSchema | src/server.py:344-439 | Each value read is what the schema leads a caller to expect: the argument when given, else the property's declared default |
| Tools.Check | src/server.py:62-439 | A tool passes the check when its branch tests its name and reads exactly its properties: required ones first in `required` order, then the optional ones with their defaults. Its property names must also be distinct and its defaults among their choices |
| Tools.CheckedWellFormed | src/server.py:62-332 | A checked schema has distinct property names and requires only properties it declares. Its defaults are allowed by its enums |
| Tools.BindsAsDeclared | src/server.py:344-439 | When no required argument is missing, a checked branch's values bind to a fitting signature. Each declared parameter receives what the schema promises and each later parameter keeps its default |
| Tools.UnknownTool | src/server.py:441-442 | An unregistered name is answered with the single text `Unknown tool: <name>` |
| Tools.Answer | src/server.py:444-448 | A returned result is answered with its JSON serialisation; an exception with `Error: <message>`. Either way the answer is a single text item |
| JiraServer.Bind | src/server.py:335-442 | `call_tool` has a branch for a name exactly when the name is among the branches' names. A branch that binds produces a call to the client method of that name |
| JiraServer.BindAt | src/server.py:341-439 | A branch that reads all its arguments calls the client method whose name the branch tests |
| JiraServer.CallTool | src/server.py:335-448 | An unknown name is answered without any request. A missing required argument is answered with `Error: '<key>'` and no request. Otherwise the requests sent are the client method's, and its result or exception is answered as a single text item |
| JiraServer.BranchesFollowRegistry | src/server.py:62-439 | The names `call_tool` tests are the names `list_tools` announces, in the same order |
| JiraServer.HandlesExactlyTheRegistry | src/server.py:335-442 | `call_tool` handles a name exactly when `list_tools` announces it |
| JiraServer.BindsByPosition | src/server.py:335-439 | The `i`-th announced tool is handled by the `i`-th branch |
| JiraServer.RegistryWellFormed | src/server.py:62-332 | Every announced schema requires only properties it declares, and no two tools share a name |
| JiraServer.MethodNamesFollowRegistry | src/jira_client.py:54-600 | The client defines its methods in the order the tools are announced, one method per tool name, with no name repeated |
| JiraServer.SignatureAt | src/server.py:335-439 | The branch for the `i`-th tool calls the `i`-th client method |
| JiraServer.RequiredArguments | src/server.py:335-448 | For every announced tool, a missing required argument makes `call_tool` raise the KeyError of the first missing one in `required` order |
| JiraServer.ArgumentsFollowSchema | src/server.py:335-439 | With its required arguments present, every tool calls its client method; Python's TypeError never occurs. Each parameter the schema declares receives the argument or its declared default, and each other parameter keeps the client's default |
| JiraTools.Registry | src/server.py:62-332 | `list_tools` announces the 21 tool schemas in order |
| JiraTools.BranchNames | src/server.py:335-439 | The names the 21 branches of `call_tool` test, in order |
| JiraTools.NamesDistinct | src/server.py:62-332 | No two announced tools share a name |
| JiraTools.CalleeAt | src/server.py:335-439 | The branch of the `i`-th tool calls the `i`-th client method |
| JiraTools.ProjectTools | src/server.py:66-105 | The project tools, in announcement order |
| JiraTools.IssueTools | src/server.py:107-179 | The issue tools that read, create, change and delete issues, in order |
| JiraTools.IssueWorkflowTools | src/server.py:180-228 | The issue tools that assign, transition and comment, in order |
| JiraTools.SprintTools | src/server.py:230-279 | The sprint tools, in order |
| JiraTools.BoardTools | src/server.py:281-300 | The board tools, in order |
| JiraTools.UserTools | src/server.py:302-321 | The user tools, in order |
| JiraTools.FieldTools | src/server.py:323-331 | The field tool |
| BitbucketServer.Bind | bitbucket-mcp/src/server.py:447-597 | `call_tool` has a branch for a name exactly when the name is among the branches' names. A branch that binds produces a call to the client method of that name |
| BitbucketServer.BindAt | bitbucket-mcp/src/server.py:453-594 | A branch that reads all its arguments calls the client method whose name the branch tests |
| BitbucketServer.CallTool | bitbucket-mcp/src/server.py:447-603 | An unknown name is answered without any request. A missing required argument is answered with `Error: '<key>'` and no request. Otherwise the client method's one request is sent and its outcome answered as a single text item |
| BitbucketServer.BranchesFollowRegistry | bitbucket-mcp/src/server.py:46-594 | The names `call_tool` tests are the names `list_tools` announces, in the same order |
| BitbucketServer.HandlesExactlyTheRegistry | bitbucket-mcp/src/server.py:447-597 | `call_tool` handles a name exactly when `list_tools` announces it |
| BitbucketServer.BindsByPosition | bitbucket-mcp/src/server.py:447-594 | The `i`-th announced tool is handled by the `i`-th branch |
| BitbucketServer.RegistryWellFormed | bitbucket-mcp/src/server.py:46-444 | Every announced schema requires only properties it declares, and no two tools share a name |
| BitbucketServer.MethodNamesFollowRegistry | src/bitbucket_client.py:29-638 | The client defines its methods in the order the tools are announced, one per tool name, with no name repeated |
| BitbucketServer.SignatureAt | bitbucket-mcp/src/server.py:447-594 | The branch for the `i`-th tool calls the `i`-th client method |
| BitbucketServer.RequiredArguments | bitbucket-mcp/src/server.py:447-603 | For every announced tool, a missing required argument makes `call_tool` raise the KeyError of the first missing one in `required` order |
| BitbucketServer.ArgumentsFollowSchema | bitbucket-mcp/src/server.py:447-594 | With its required arguments present, every tool calls its client method; Python's TypeError never occurs. Each parameter the schema declares receives the argument or its declared default, and each other parameter keeps the client's default |
| BitbucketTools.Registry | bitbucket-mcp/src/server.py:46-444 | `list_tools` announces the 27 tool schemas in order |
| BitbucketTools.BranchNames | bitbucket-mcp/src/server.py:447-594 | The names the 27 branches of `call_tool` test, in order |
| BitbucketTools.NamesDistinct | bitbucket-mcp/src/server.py:46-444 | No two announced tools share a name |
| BitbucketTools.CalleeAt | bitbucket-mcp/src/server.py:447-594 | The branch of the `i`-th tool calls the `i`-th client method |
| BitbucketTools.RepositoryTools | bitbucket-mcp/src/server.py:50-101 | The repository tools, in announcement order |
| BitbucketTools.PullRequestTools | bitbucket-mcp/src/server.py:103-185 | The pull request tools that list, read, open, edit and merge, in order |
| BitbucketTools.PullRequestReviewTools | bitbucket-mcp/src/server.py:186-251 | The pull request tools that decline, approve and comment, in order |
| BitbucketTools.BranchTools | bitbucket-mcp/src/server.py:253-305 | The branch tools, in order |
| BitbucketTools.CommitTools | bitbucket-mcp/src/server.py:307-346 | The commit tools, in order |
| BitbucketTools.IssueTools | bitbucket-mcp/src/server.py:348-422 | The issue tools, in order |
| BitbucketTools.WorkspaceTools | bitbucket-mcp/src/server.py:424-443 | The workspace tools, in order |
| JiraTools.ListProjectsTool | src/server.py:67-74 | Announces `list_projects` with no properties; the type of its result checks that its branch reads no arguments |
| JiraTools.ListProjectsHandler | src/server.py:341-342 | The `list_projects` branch calls the client method `list_projects` with no arguments, which needs none |
| JiraTools.GetProjectTool | src/server.py:75-85 | Announces `get_project`: requires `project_key`; declares nothing else. The type of its result checks that the branch reads exactly these keys, the required ones first in the `required` order, that the property names are distinct and that each default is one of the property's choices |
| JiraTools.GetProjectHandler | src/server.py:343-344 | The `get_project` branch passes `arguments['project_key']`, in that order, to the client method `get_project`, whose leading parameters have those same names |
| JiraTools.CreateProjectTool | src/server.py:86-105 | Announces `create_project`: requires `key`, `name`; also declares `project_type_key` (one of 'software', 'business', 'service_desk'; default 'software'), `lead_account_id`, `description`. The type of its result checks that the branch reads exactly these keys, the required ones first in the `required` order, that the property names are distinct and that each default is one of the property's choices |
| JiraTools.CreateProjectHandler | src/server.py:345-352 | The `create_project` branch passes `arguments['key']`, `arguments['name']` then `arguments.get('project_type_key', 'software')`, `arguments.get('lead_account_id')`, `arguments.get('description')`, in that order, to the client method `create_project`, whose leading parameters have those same names |
| JiraTools.SearchIssuesTool | src/server.py:108-120 | Announces `search_issues`: requires `jql`; also declares `max_results` (default 50), `start_at` (default 0). The type of its result checks that the branch reads exactly these keys, the required ones first in the `required` order, that the property names are distinct and that each default is one of the property's choices |
| JiraTools.SearchIssuesHandler | src/server.py:355-360 | The `search_issues` branch passes `arguments['jql']` then `arguments.get('max_results', 50)`, `arguments.get('start_at', 0)`, in that order, to the client method `search_issues`, whose leading parameters have those same names; its remaining parameter `fields` keeps its default |
| JiraTools.GetIssueTool | src/server.py:121-131 | Announces `get_issue`: requires `issue_key`; declares nothing else. The type of its result checks that the branch reads exactly these keys, the required ones first in the `required` order, that the property names are distinct and that each default is one of the property's choices |
| JiraTools.GetIssueHandler | src/server.py:361-362 | The `get_issue` branch passes `arguments['issue_key']`, in that order, to the client method `get_issue`, whose leading parameters have those same names |
| JiraTools.CreateIssueTool | src/server.py:132-148 | Announces `create_issue`: requires `project_key`, `summary`, `issue_type`; also declares `description`, `priority`, `assignee_id`, `labels`. The type of its result checks that the branch reads exactly these keys, the required ones first in the `required` order, that the property names are distinct and that each default is one of the property's choices |
| JiraTools.CreateIssueHandler | src/server.py:363-372 | The `create_issue` branch passes `arguments['project_key']`, `arguments['summary']`, `arguments['issue_type']` then `arguments.get('description')`, `arguments.get('priority')`, `arguments.get('assignee_id')`, `arguments.get('labels')`, in that order, to the client method `create_issue`, whose leading parameters have those same names |
| JiraTools.UpdateIssueTool | src/server.py:149-168 | Announces `update_issue`: requires `issue_key`; also declares `summary`, `description`, `priority`, `assignee_id`, `labels`, `story_points`, `sprint`, `acceptance_criteria`, `technical_requirements`. The type of its result checks that the branch reads exactly these keys, the required ones first in the `required` order, that the property names are distinct and that each default is one of the property's choices |
| JiraTools.UpdateIssueHandler | src/server.py:373-385 | The `update_issue` branch passes `arguments['issue_key']` then `arguments.get('summary')`, `arguments.get('description')`, `arguments.get('priority')`, `arguments.get('assignee_id')`, `arguments.get('labels')`, `arguments.get('story_points')`, `arguments.get('sprint')`, `arguments.get('acceptance_criteria')`, `arguments.get('technical_requirements')`, in that order, to the client method `update_issue`, whose leading parameters have those same names |
| JiraTools.DeleteIssueTool | src/server.py:169-179 | Announces `delete_issue`: requires `issue_key`; declares nothing else. The type of its result checks that the branch reads exactly these keys, the required ones first in the `required` order, that the property names are distinct and that each default is one of the property's choices |
| JiraTools.DeleteIssueHandler | src/server.py:386-387 | The `delete_issue` branch passes `arguments['issue_key']`, in that order, to the client method `delete_issue`, whose leading parameters have those same names |
| JiraTools.AssignIssueTool | src/server.py:180-191 | Announces `assign_issue`: requires `issue_key`, `assignee_id`; declares nothing else. The type of its result checks that the branch reads exactly these keys, the required ones first in the `required` order, that the property names are distinct and that each default is one of the property's choices |
| JiraTools.AssignIssueHandler | src/server.py:388-391 | The `assign_issue` branch passes `arguments['issue_key']`, `arguments['assignee_id']`, in that order, to the client method `assign_issue`, whose leading parameters have those same names |
| JiraTools.TransitionIssueTool | src/server.py:192-204 | Announces `transition_issue`: requires `issue_key`; also declares `transition_id`, `transition_name`. The type of its result checks that the branch reads exactly these keys, the required ones first in the `required` order, that the property names are distinct and that each default is one of the property's choices |
| JiraTools.TransitionIssueHandler | src/server.py:392-397 | The `transition_issue` branch passes `arguments['issue_key']` then `arguments.get('transition_id')`, `arguments.get('transition_name')`, in that order, to the client method `transition_issue`, whose leading parameters have those same names |
| JiraTools.AddCommentTool | src/server.py:205-216 | Announces `add_comment`: requires `issue_key`, `comment`; declares nothing else. The type of its result checks that the branch reads exactly these keys, the required ones first in the `required` order, that the property names are distinct and that each default is one of the property's choices |
| JiraTools.AddCommentHandler | src/server.py:398-401 | The `add_comment` branch passes `arguments['issue_key']`, `arguments['comment']`, in that order, to the client method `add_comment`, whose leading parameters have those same names |
| JiraTools.DeleteCommentTool | src/server.py:217-228 | Announces `delete_comment`: requires `issue_key`, `comment_id`; declares nothing else. The type of its result checks that the branch reads exactly these keys, the required ones first in the `required` order, that the property names are distinct and that each default is one of the property's choices |
| JiraTools.DeleteCommentHandler | src/server.py:402-405 | The `delete_comment` branch passes `arguments['issue_key']`, `arguments['comment_id']`, in that order, to the client method `delete_comment`, whose leading parameters have those same names |
| JiraTools.ListSprintsTool | src/server.py:231-241 | Announces `list_sprints`: requires `board_id`; declares nothing else. The type of its result checks that the branch reads exactly these keys, the required ones first in the `required` order, that the property names are distinct and that each default is one of the property's choices |
| JiraTools.ListSprintsHandler | src/server.py:408-409 | The `list_sprints` branch passes `arguments['board_id']`, in that order, to the client method `list_sprints`, whose leading parameters have those same names |
| JiraTools.GetSprintTool | src/server.py:242-252 | Announces `get_sprint`: requires `sprint_id`; declares nothing else. The type of its result checks that the branch reads exactly these keys, the required ones first in the `required` order, that the property names are distinct and that each default is one of the property's choices |
| JiraTools.GetSprintHandler | src/server.py:410-411 | The `get_sprint` branch passes `arguments['sprint_id']`, in that order, to the client method `get_sprint`, whose leading parameters have those same names |
| JiraTools.CreateSprintTool | src/server.py:253-267 | Announces `create_sprint`: requires `board_id`, `name`; also declares `start_date`, `end_date`, `goal`. The type of its result checks that the branch reads exactly these keys, the required ones first in the `required` order, that the property names are distinct and that each default is one of the property's choices |
| JiraTools.CreateSprintHandler | src/server.py:412-419 | The `create_sprint` branch passes `arguments['board_id']`, `arguments['name']` then `arguments.get('start_date')`, `arguments.get('end_date')`, `arguments.get('goal')`, in that order, to the client method `create_sprint`, whose leading parameters have those same names |
| JiraTools.MoveIssuesToSprintTool | src/server.py:268-279 | Announces `move_issues_to_sprint`: requires `sprint_id`, `issue_keys`; declares nothing else. The type of its result checks that the branch reads exactly these keys, the required ones first in the `required` order, that the property names are distinct and that each default is one of the property's choices |
| JiraTools.MoveIssuesToSprintHandler | src/server.py:420-423 | The `move_issues_to_sprint` branch passes `arguments['sprint_id']`, `arguments['issue_keys']`, in that order, to the client method `move_issues_to_sprint`, whose leading parameters have those same names |
| JiraTools.ListBoardsTool | src/server.py:282-289 | Announces `list_boards` with no properties; the type of its result checks that its branch reads no arguments |
| JiraTools.ListBoardsHandler | src/server.py:426-427 | The `list_boards` branch calls the client method `list_boards` with no arguments, which needs none |
| JiraTools.GetBoardTool | src/server.py:290-300 | Announces `get_board`: requires `board_id`; declares nothing else. The type of its result checks that the branch reads exactly these keys, the required ones first in the `required` order, that the property names are distinct and that each default is one of the property's choices |
| JiraTools.GetBoardHandler | src/server.py:428-429 | The `get_board` branch passes `arguments['board_id']`, in that order, to the client method `get_board`, whose leading parameters have those same names |
| JiraTools.SearchUsersTool | src/server.py:303-313 | Announces `search_users`: requires `query`; declares nothing else. The type of its result checks that the branch reads exactly these keys, the required ones first in the `required` order, that the property names are distinct and that each default is one of the property's choices |
| JiraTools.SearchUsersHandler | src/server.py:432-433 | The `search_users` branch passes `arguments['query']`, in that order, to the client method `search_users`, whose leading parameters have those same names |
| JiraTools.GetCurrentUserTool | src/server.py:314-321 | Announces `get_current_user` with no properties; the type of its result checks that its branch reads no arguments |
| JiraTools.GetCurrentUserHandler | src/server.py:434-435 | The `get_current_user` branch calls the client method `get_current_user` with no arguments, which needs none |
| JiraTools.GetCustomFieldsTool | src/server.py:324-331 | Announces `get_custom_fields` with no properties; the type of its result checks that its branch reads no arguments |
| JiraTools.GetCustomFieldsHandler | src/server.py:438-439 | The `get_custom_fields` branch calls the client method `get_custom_fields` with no arguments, which needs none |
| BitbucketTools.GetRepositoryTool | bitbucket-mcp/src/server.py:51-62 | Announces `get_repository`: requires `workspace`, `repo_slug`; declares nothing else. The type of its result checks that the branch reads exactly these keys, the required ones first in the `required` order, that the property names are distinct and that each default is one of the property's choices |
| BitbucketTools.GetRepositoryHandler | bitbucket-mcp/src/server.py:453-456 | The `get_repository` branch passes `arguments['workspace']`, `arguments['repo_slug']`, in that order, to the client method `get_repository`, whose leading parameters have those same names |
| BitbucketTools.ListRepositoriesTool | bitbucket-mcp/src/server.py:63-73 | Announces `list_repositories`: requires `workspace`; declares nothing else. The type of its result checks that the branch reads exactly these keys, the required ones first in the `required` order, that the property names are distinct and that each default is one of the property's choices |
| BitbucketTools.ListRepositoriesHandler | bitbucket-mcp/src/server.py:457-458 | The `list_repositories` branch passes `arguments['workspace']`, in that order, to the client method `list_repositories`, whose leading parameters have those same names |
| BitbucketTools.CreateRepositoryTool | bitbucket-mcp/src/server.py:74-88 | Announces `create_repository`: requires `workspace`, `repo_slug`; also declares `is_private` (default True), `description`, `project_key`. The type of its result checks that the branch reads exactly these keys, the required ones first in the `required` order, that the property names are distinct and that each default is one of the property's choices |
| BitbucketTools.CreateRepositoryHandler | bitbucket-mcp/src/server.py:459-466 | The `create_repository` branch passes `arguments['workspace']`, `arguments['repo_slug']` then `arguments.get('is_private', True)`, `arguments.get('description')`, `arguments.get('project_key')`, in that order, to the client method `create_repository`, whose leading parameters have those same names |
| BitbucketTools.SearchCodeTool | bitbucket-mcp/src/server.py:89-101 | Announces `search_code`: requires `workspace`, `repo_slug`, `search_query`; declares nothing else. The type of its result checks that the branch reads exactly these keys, the required ones first in the `required` order, that the property names are distinct and that each default is one of the property's choices |
| BitbucketTools.SearchCodeHandler | bitbucket-mcp/src/server.py:467-470 | The `search_code` branch passes `arguments['workspace']`, `arguments['repo_slug']`, `arguments['search_query']`, in that order, to the client method `search_code`, whose leading parameters have those same names |
| BitbucketTools.ListPullRequestsTool | bitbucket-mcp/src/server.py:104-120 | Announces `list_pull_requests`: requires `workspace`, `repo_slug`; also declares `state` (one of 'OPEN', 'MERGED', 'DECLINED'). The type of its result checks that the branch reads exactly these keys, the required ones first in the `required` order, that the property names are distinct and that each default is one of the property's choices |
| BitbucketTools.ListPullRequestsHandler | bitbucket-mcp/src/server.py:473-476 | The `list_pull_requests` branch passes `arguments['workspace']`, `arguments['repo_slug']` then `arguments.get('state')`, in that order, to the client method `list_pull_requests`, whose leading parameters have those same names |
| BitbucketTools.GetPullRequestTool | bitbucket-mcp/src/server.py:121-133 | Announces `get_pull_request`: requires `workspace`, `repo_slug`, `pr_id`; declares nothing else. The type of its result checks that the branch reads exactly these keys, the required ones first in the `required` order, that the property names are distinct and that each default is one of the property's choices |
| BitbucketTools.GetPullRequestHandler | bitbucket-mcp/src/server.py:477-480 | The `get_pull_request` branch passes `arguments['workspace']`, `arguments['repo_slug']`, `arguments['pr_id']`, in that order, to the client method `get_pull_request`, whose leading parameters have those same names |
| BitbucketTools.CreatePullRequestTool | bitbucket-mcp/src/server.py:134-150 | Announces `create_pull_request`: requires `workspace`, `repo_slug`, `title`, `source_branch`, `destination_branch`; also declares `description`, `close_source_branch` (default False). The type of its result checks that the branch reads exactly these keys, the required ones first in the `required` order, that the property names are distinct and that each default is one of the property's choices |
| BitbucketTools.CreatePullRequestHandler | bitbucket-mcp/src/server.py:481-490 | The `create_pull_request` branch passes `arguments['workspace']`, `arguments['repo_slug']`, `arguments['title']`, `arguments['source_branch']`, `arguments['destination_branch']` then `arguments.get('description')`, `arguments.get('close_source_branch', False)`, in that order, to the client method `create_pull_request`, whose leading parameters have those same names |
| BitbucketTools.UpdatePullRequestTool | bitbucket-mcp/src/server.py:151-165 | Announces `update_pull_request`: requires `workspace`, `repo_slug`, `pr_id`; also declares `title`, `description`. The type of its result checks that the branch reads exactly these keys, the required ones first in the `required` order, that the property names are distinct and that each default is one of the property's choices |
| BitbucketTools.UpdatePullRequestHandler | bitbucket-mcp/src/server.py:491-498 | The `update_pull_request` branch passes `arguments['workspace']`, `arguments['repo_slug']`, `arguments['pr_id']` then `arguments.get('title')`, `arguments.get('description')`, in that order, to the client method `update_pull_request`, whose leading parameters have those same names |
| BitbucketTools.MergePullRequestTool | bitbucket-mcp/src/server.py:166-185 | Announces `merge_pull_request`: requires `workspace`, `repo_slug`, `pr_id`; also declares `merge_strategy` (one of 'merge_commit', 'squash', 'fast_forward'; default 'merge_commit'), `message`. The type of its result checks that the branch reads exactly these keys, the required ones first in the `required` order, that the property names are distinct and that each default is one of the property's choices |
| BitbucketTools.MergePullRequestHandler | bitbucket-mcp/src/server.py:499-506 | The `merge_pull_request` branch passes `arguments['workspace']`, `arguments['repo_slug']`, `arguments['pr_id']` then `arguments.get('merge_strategy', 'merge_commit')`, `arguments.get('message')`, in that order, to the client method `merge_pull_request`, whose leading parameters have those same names |
| BitbucketTools.DeclinePullRequestTool | bitbucket-mcp/src/server.py:186-198 | Announces `decline_pull_request`: requires `workspace`, `repo_slug`, `pr_id`; declares nothing else. The type of its result checks that the branch reads exactly these keys, the required ones first in the `required` order, that the property names are distinct and that each default is one of the property's choices |
| BitbucketTools.DeclinePullRequestHandler | bitbucket-mcp/src/server.py:507-510 | The `decline_pull_request` branch passes `arguments['workspace']`, `arguments['repo_slug']`, `arguments['pr_id']`, in that order, to the client method `decline_pull_request`, whose leading parameters have those same names |
| BitbucketTools.ApprovePullRequestTool | bitbucket-mcp/src/server.py:199-211 | Announces `approve_pull_request`: requires `workspace`, `repo_slug`, `pr_id`; declares nothing else. The type of its result checks that the branch reads exactly these keys, the required ones first in the `required` order, that the property names are distinct and that each default is one of the property's choices |
| BitbucketTools.ApprovePullRequestHandler | bitbucket-mcp/src/server.py:511-514 | The `approve_pull_request` branch passes `arguments['workspace']`, `arguments['repo_slug']`, `arguments['pr_id']`, in that order, to the client method `approve_pull_request`, whose leading parameters have those same names |
| BitbucketTools.UnapprovePullRequestTool | bitbucket-mcp/src/server.py:212-224 | Announces `unapprove_pull_request`: requires `workspace`, `repo_slug`, `pr_id`; declares nothing else. The type of its result checks that the branch reads exactly these keys, the required ones first in the `required` order, that the property names are distinct and that each default is one of the property's choices |
| BitbucketTools.UnapprovePullRequestHandler | bitbucket-mcp/src/server.py:515-518 | The `unapprove_pull_request` branch passes `arguments['workspace']`, `arguments['repo_slug']`, `arguments['pr_id']`, in that order, to the client method `unapprove_pull_request`, whose leading parameters have those same names |
| BitbucketTools.ListPrCommentsTool | bitbucket-mcp/src/server.py:225-237 | Announces `list_pr_comments`: requires `workspace`, `repo_slug`, `pr_id`; declares nothing else. The type of its result checks that the branch reads exactly these keys, the required ones first in the `required` order, that the property names are distinct and that each default is one of the property's choices |
| BitbucketTools.ListPrCommentsHandler | bitbucket-mcp/src/server.py:519-522 | The `list_pr_comments` branch passes `arguments['workspace']`, `arguments['repo_slug']`, `arguments['pr_id']`, in that order, to the client method `list_pr_comments`, whose leading parameters have those same names |
| BitbucketTools.AddPrCommentTool | bitbucket-mcp/src/server.py:238-251 | Announces `add_pr_comment`: requires `workspace`, `repo_slug`, `pr_id`, `content`; declares nothing else. The type of its result checks that the branch reads exactly these keys, the required ones first in the `required` order, that the property names are distinct and that each default is one of the property's choices |
| BitbucketTools.AddPrCommentHandler | bitbucket-mcp/src/server.py:523-526 | The `add_pr_comment` branch passes `arguments['workspace']`, `arguments['repo_slug']`, `arguments['pr_id']`, `arguments['content']`, in that order, to the client method `add_pr_comment`, whose leading parameters have those same names |
| BitbucketTools.ListBranchesTool | bitbucket-mcp/src/server.py:254-265 | Announces `list_branches`: requires `workspace`, `repo_slug`; declares nothing else. The type of its result checks that the branch reads exactly these keys, the required ones first in the `required` order, that the property names are distinct and that each default is one of the property's choices |
| BitbucketTools.ListBranchesHandler | bitbucket-mcp/src/server.py:529-532 | The `list_branches` branch passes `arguments['workspace']`, `arguments['repo_slug']`, in that order, to the client method `list_branches`, whose leading parameters have those same names |
| BitbucketTools.GetBranchTool | bitbucket-mcp/src/server.py:266-278 | Announces `get_branch`: requires `workspace`, `repo_slug`, `branch_name`; declares nothing else. The type of its result checks that the branch reads exactly these keys, the required ones first in the `required` order, that the property names are distinct and that each default is one of the property's choices |
| BitbucketTools.GetBranchHandler | bitbucket-mcp/src/server.py:533-536 | The `get_branch` branch passes `arguments['workspace']`, `arguments['repo_slug']`, `arguments['branch_name']`, in that order, to the client method `get_branch`, whose leading parameters have those same names |
| BitbucketTools.CreateBranchTool | bitbucket-mcp/src/server.py:279-292 | Announces `create_branch`: requires `workspace`, `repo_slug`, `branch_name`, `target`; declares nothing else. The type of its result checks that the branch reads exactly these keys, the required ones first in the `required` order, that the property names are distinct and that each default is one of the property's choices |
| BitbucketTools.CreateBranchHandler | bitbucket-mcp/src/server.py:537-540 | The `create_branch` branch passes `arguments['workspace']`, `arguments['repo_slug']`, `arguments['branch_name']`, `arguments['target']`, in that order, to the client method `create_branch`, whose leading parameters have those same names |
| BitbucketTools.DeleteBranchTool | bitbucket-mcp/src/server.py:293-305 | Announces `delete_branch`: requires `workspace`, `repo_slug`, `branch_name`; declares nothing else. The type of its result checks that the branch reads exactly these keys, the required ones first in the `required` order, that the property names are distinct and that each default is one of the property's choices |
| BitbucketTools.DeleteBranchHandler | bitbucket-mcp/src/server.py:541-544 | The `delete_branch` branch passes `arguments['workspace']`, `arguments['repo_slug']`, `arguments['branch_name']`, in that order, to the client method `delete_branch`, whose leading parameters have those same names |
| BitbucketTools.ListCommitsTool | bitbucket-mcp/src/server.py:308-320 | Announces `list_commits`: requires `workspace`, `repo_slug`; also declares `branch`. The type of its result checks that the branch reads exactly these keys, the required ones first in the `required` order, that the property names are distinct and that each default is one of the property's choices |
| BitbucketTools.ListCommitsHandler | bitbucket-mcp/src/server.py:547-550 | The `list_commits` branch passes `arguments['workspace']`, `arguments['repo_slug']` then `arguments.get('branch')`, in that order, to the client method `list_commits`, whose leading parameters have those same names |
| BitbucketTools.GetCommitTool | bitbucket-mcp/src/server.py:321-333 | Announces `get_commit`: requires `workspace`, `repo_slug`, `commit_hash`; declares nothing else. The type of its result checks that the branch reads exactly these keys, the required ones first in the `required` order, that the property names are distinct and that each default is one of the property's choices |
| BitbucketTools.GetCommitHandler | bitbucket-mcp/src/server.py:551-554 | The `get_commit` branch passes `arguments['workspace']`, `arguments['repo_slug']`, `arguments['commit_hash']`, in that order, to the client method `get_commit`, whose leading parameters have those same names |
| BitbucketTools.GetCommitDiffTool | bitbucket-mcp/src/server.py:334-346 | Announces `get_commit_diff`: requires `workspace`, `repo_slug`, `commit_hash`; declares nothing else. The type of its result checks that the branch reads exactly these keys, the required ones first in the `required` order, that the property names are distinct and that each default is one of the property's choices |
| BitbucketTools.GetCommitDiffHandler | bitbucket-mcp/src/server.py:555-558 | The `get_commit_diff` branch passes `arguments['workspace']`, `arguments['repo_slug']`, `arguments['commit_hash']`, in that order, to the client method `get_commit_diff`, whose leading parameters have those same names |
| BitbucketTools.ListIssuesTool | bitbucket-mcp/src/server.py:349-365 | Announces `list_issues`: requires `workspace`, `repo_slug`; also declares `state` (one of 'new', 'open', 'resolved', 'on hold', 'invalid', 'duplicate', 'wontfix', 'closed'). The type of its result checks that the branch reads exactly these keys, the required ones first in the `required` order, that the property names are distinct and that each default is one of the property's choices |
| BitbucketTools.ListIssuesHandler | bitbucket-mcp/src/server.py:561-564 | The `list_issues` branch passes `arguments['workspace']`, `arguments['repo_slug']` then `arguments.get('state')`, in that order, to the client method `list_issues`, whose leading parameters have those same names |
| BitbucketTools.GetIssueTool | bitbucket-mcp/src/server.py:366-378 | Announces `get_issue`: requires `workspace`, `repo_slug`, `issue_id`; declares nothing else. The type of its result checks that the branch reads exactly these keys, the required ones first in the `required` order, that the property names are distinct and that each default is one of the property's choices |
| BitbucketTools.GetIssueHandler | bitbucket-mcp/src/server.py:565-568 | The `get_issue` branch passes `arguments['workspace']`, `arguments['repo_slug']`, `arguments['issue_id']`, in that order, to the client method `get_issue`, whose leading parameters have those same names |
| BitbucketTools.CreateIssueTool | bitbucket-mcp/src/server.py:379-404 | Announces `create_issue`: requires `workspace`, `repo_slug`, `title`; also declares `description`, `kind` (one of 'bug', 'enhancement', 'proposal', 'task'; default 'bug'), `priority` (one of 'trivial', 'minor', 'major', 'critical', 'blocker'; default 'major'). The type of its result checks that the branch reads exactly these keys, the required ones first in the `required` order, that the property names are distinct and that each default is one of the property's choices |
| BitbucketTools.CreateIssueHandler | bitbucket-mcp/src/server.py:569-577 | The `create_issue` branch passes `arguments['workspace']`, `arguments['repo_slug']`, `arguments['title']` then `arguments.get('description')`, `arguments.get('kind', 'bug')`, `arguments.get('priority', 'major')`, in that order, to the client method `create_issue`, whose leading parameters have those same names |
| BitbucketTools.UpdateIssueTool | bitbucket-mcp/src/server.py:405-422 | Announces `update_issue`: requires `workspace`, `repo_slug`, `issue_id`; also declares `title`, `description`, `state`, `kind`, `priority`. The type of its result checks that the branch reads exactly these keys, the required ones first in the `required` order, that the property names are distinct and that each default is one of the property's choices |
| BitbucketTools.UpdateIssueHandler | bitbucket-mcp/src/server.py:578-588 | The `update_issue` branch passes `arguments['workspace']`, `arguments['repo_slug']`, `arguments['issue_id']` then `arguments.get('title')`, `arguments.get('description')`, `arguments.get('state')`, `arguments.get('kind')`, `arguments.get('priority')`, in that order, to the client method `update_issue`, whose leading parameters have those same names |
| BitbucketTools.ListWorkspacesTool | bitbucket-mcp/src/server.py:425-432 | Announces `list_workspaces` with no properties; the type of its result checks that its branch reads no arguments |
| BitbucketTools.ListWorkspacesHandler | bitbucket-mcp/src/server.py:591-592 | The `list_workspaces` branch calls the client method `list_workspaces` with no arguments, which needs none |
| BitbucketTools.GetWorkspaceTool | bitbucket-mcp/src/server.py:433-443 | Announces `get_workspace`: requires `workspace`; declares nothing else. The type of its result checks that the branch reads exactly these keys, the required ones first in the `required` order, that the property names are distinct and that each default is one of the property's choices |
| BitbucketTools.GetWorkspaceHandler | bitbucket-mcp/src/server.py:593-594 | The `get_workspace` branch passes `arguments['workspace']`, in that order, to the client method `get_workspace`, whose leading parameters have those same names |

## Left out

- I/O: HTTP itself (httpx, the async client, authentication headers and `close()`), environment variables, the stdio server loop and `__main__` are not modelled. The transport is a parameter of every operation.
- `list_resources` and the tool descriptions are not modelled. Each schema keeps only its property names, enum choices, defaults and `required` list, not the JSON type of each property.
- Floating point: `story_points` and other numbers pass through as opaque JSON values. No arithmetic is done on them.
- `json.dumps(result, indent=2)` is a parameter `dumps` of `CallTool`. Its text format is not modelled.
- `str()` and `repr()` of JSON values, used only inside error messages and URLs, are approximated: single quotes, no escaping. The messages of CPython's own exceptions are modelled for KeyError and for the cases the model raises, not in CPython's every wording.
- Json.Lower: lower-cases ASCII letters only, because Python's full Unicode case mapping is out of scope. TransitionNameIgnoresCase and FindIgnoresCase are stated for this lower-casing.
- A dict with duplicate keys is a member list. A lookup finds the first occurrence.
- JiraServer.Mistyped: the TypeError Python would raise if a branch passed values its client method cannot take. It has no message; ArgumentsFollowSchema shows this branch is never reached.
- BitbucketTools.ListWorkspacesTool: `list_workspaces` declares no `required` key at all. The same holds for JiraTools.ListProjectsTool, JiraTools.ListBoardsTool, JiraTools.GetCurrentUserTool and JiraTools.GetCustomFieldsTool (`list_projects`, `list_boards`, `get_current_user`, `get_custom_fields`). In JSON Schema a missing `required` list means no property is required, so the model gives it an empty list.
- JiraTools.SearchIssuesHandler: the server never passes `fields` to `search_issues`, so through the server the search body never holds `fields`. SearchBody still models the client's own handling of `fields`.
- BitbucketClient.RequestOf: the exact path after the repository or pull request prefix, and the verb and body of each method other than `add_pr_comment` and the bodyless POSTs, are in its body only. ResourcePaths, RepositoryListingPath and WorkspacePaths state the prefixes.
- JiraClient.RequestOf: states the base URL and which method sends query parameters. The exact URL paths and verbs of the single-request methods are in its body, and WritesCarryBodies states how verbs and bodies go together.
- JiraClient.Interpret: the status objects of the status-returning methods are stated through Acknowledgement, and the reshaped results of `get_issue` and `get_custom_fields` through WithDescriptionText and CustomFieldsReport.
- Tools.Check: the schema's properties are written in the order the branch reads them, required ones first. The two orders agree for every tool of both servers, so the model can state the check position by position.
