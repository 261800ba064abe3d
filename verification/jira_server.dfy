/** The JIRA MCP server's `call_tool`: how a tool name and its arguments
    become one client call and one text reply. The tools themselves are
    data, in the JiraTools module. */
module JiraServer {
  import opened Wrappers
  import opened Json
  import opened Http
  import opened Signatures
  import opened Tools
  import opened JiraClient
  import opened JiraTools

  /** The message Python's TypeError would carry when a branch passed values
      its client method cannot take; `ArgumentsFollowSchema` shows no
      branch does */
  const Mistyped := "TypeError"

  /** The branch of `call_tool` taken for `name`: the client call with its
      arguments read in order, or the KeyError of the first required
      argument that is missing; None for a name no branch tests */
  function Bind(name: string, arguments: Members): (b: Option<Result<Call>>)
    ensures b.None? <==> name !in BranchNames()
    ensures b.Some? && b.value.Ok? ==> MethodName(b.value.value) == name
  {
    match Position(BranchNames(), name)
    case None => None
    case Some(i) => Some(BindAt(i, arguments))
  }

  /** The `i`-th branch: its arguments read in order, then the call of the
      client method it names */
  function BindAt(i: nat, arguments: Members): (r: Result<Call>)
    requires i < ToolCount
    ensures r.Ok? ==> MethodName(r.value) == BranchNames()[i]
  {
    var branch := BranchAt(i);
    match ReadAll(arguments, branch.args)
    case Err(e) => Err(e)
    case Ok(vs) =>
      match Invoke(branch.name, vs)
      case None => Err(Mistyped)
      case Some(call) => Ok(call)
  }

  /** The `i`-th branch of `call_tool` */
  function BranchAt(i: nat): (b: Branch)
    requires i < ToolCount
    ensures b == ToolAt(i).tool.branch && b.name == BranchNames()[i]
  {
    ToolAt(i).tool.branch
  }

  /** What one `call_tool` invocation sends and answers */
  datatype Reply = Reply(sent: seq<Request>, content: seq<TextContent>)

  /** `call_tool(name, arguments)`: an unknown name is answered without any
      request; a missing required argument raises inside the `try` and is
      answered as an error, also without any request; otherwise the client
      method runs and its result, or its exception, becomes the one text
      item */
  function CallTool(c: Client, name: string, arguments: Members, send: Transport, dumps: Json -> string): (reply: Reply)
    ensures |reply.content| == 1
    ensures name !in ToolNames(Registry()) ==> reply == Reply([], UnknownTool(name))
    ensures Bind(name, arguments).Some? && Bind(name, arguments).value.Err? ==>
      reply.sent == [] && reply.content[0].text == "Error: " + Bind(name, arguments).value.error
    ensures Bind(name, arguments).Some? && Bind(name, arguments).value.Ok? ==>
      var ex := Run(c, Bind(name, arguments).value.value, send);
      reply.sent == ex.sent && reply.content == Answer(ex.result, dumps)
  {
    HandlesExactlyTheRegistry(name, arguments);
    match Bind(name, arguments)
    case None => Reply([], UnknownTool(name))
    case Some(Err(e)) => Reply([], Answer(Err(e), dumps))
    case Some(Ok(call)) =>
      var ex := Run(c, call, send);
      Reply(ex.sent, Answer(ex.result, dumps))
  }

  // ----------------------------------------------------------------- lemmas

  /** Each branch tests the name of the tool announced at the same position */
  lemma BranchesFollowRegistry()
    ensures BranchNames() == ToolNames(Registry())
  {
    forall i | 0 <= i < ToolCount
      ensures BranchNames()[i] == ToolNames(Registry())[i]
    {
    }
  }

  /** `call_tool` handles exactly the announced names */
  lemma HandlesExactlyTheRegistry(name: string, arguments: Members)
    ensures Bind(name, arguments).Some? <==> name in ToolNames(Registry())
  {
    BranchesFollowRegistry();
  }

  /** The branch for the `i`-th announced tool is the `i`-th one */
  lemma BindsByPosition(i: nat)
    requires i < ToolCount
    ensures Position(BranchNames(), Registry()[i].name) == Some(i)
  {
    BranchesFollowRegistry();
    NamesDistinct();
    PositionOfDistinct(BranchNames(), i);
  }

  /** Each announced schema is well formed, and no two share a name */
  lemma RegistryWellFormed()
    ensures forall i :: 0 <= i < |Registry()| ==> WellFormed(Registry()[i])
    ensures Distinct(ToolNames(Registry()))
  {
    forall i | 0 <= i < |Registry()|
      ensures WellFormed(Registry()[i])
    {
      CheckedWellFormed(ToolAt(i).tool);
    }
    NamesDistinct();
  }

  /** The `i`-th client method is named like the `i`-th tool, so the client
      has one method per tool name */
  lemma MethodNamesFollowRegistry()
    ensures MethodNames() == ToolNames(Registry())
    ensures Distinct(MethodNames())
  {
    forall i | 0 <= i < ToolCount
      ensures MethodNames()[i] == ToolNames(Registry())[i]
    {
      CalleeAt(i);
    }
    NamesDistinct();
  }

  /** The branch for the `i`-th tool calls the `i`-th client method */
  lemma SignatureAt(i: nat)
    requires i < ToolCount
    ensures Signature(Registry()[i].name) == Some(Methods()[i].params)
  {
    MethodNamesFollowRegistry();
    PositionOfDistinct(MethodNames(), i);
  }

  /** The dispatcher raises KeyError exactly when an argument the schema
      requires is missing, and names the first such argument in the
      schema's order */
  lemma RequiredArguments(i: nat, arguments: Members)
    requires i < ToolCount
    ensures var t := Registry()[i]; var b := Bind(t.name, arguments);
      && b.Some?
      && (FirstMissing(t.required, arguments).Some? ==>
            b.value == Err(KeyErrorText(FirstMissing(t.required, arguments).value)))
  {
    BindsByPosition(i);
    var t := ToolAt(i).tool;
    DeclaredRaises(t.schema, t.branch.args, arguments);
  }

  /** Once the required arguments are present the client method is called,
      never with values it cannot take, and every parameter receives what
      the schema promises: the argument when given, else the declared
      default; a parameter the schema does not declare gets the client's
      own default */
  lemma ArgumentsFollowSchema(i: nat, arguments: Members)
    requires i < ToolCount
    requires FirstMissing(Registry()[i].required, arguments).None?
    ensures var t := Registry()[i]; var b := Bind(t.name, arguments);
      && b.Some? && b.value.Ok?
      && MethodName(b.value.value) == t.name
      && var vs := Args(b.value.value); var sig := Methods()[i].params;
      && |vs| == |sig| && |t.properties| <= |sig|
      && (forall j :: 0 <= j < |t.properties| ==>
            sig[j].name == t.properties[j].name && vs[j] == Expected(t, arguments, sig[j].name))
      && (forall j :: |t.properties| <= j < |sig| ==> sig[j].default == Some(vs[j]))
  {
    BindsByPosition(i);
    SignatureAt(i);
    CalleeAt(i);
    BindsAsDeclared(ToolAt(i).tool, Methods()[i].params, arguments);
  }
}
