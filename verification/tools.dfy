/** What the two MCP servers share: tool schemas as data, the way `call_tool`
    reads its arguments, and the single text item every call answers with. */
module Tools {
  import opened Wrappers
  import opened Json
  import opened Signatures

  // --------------------------------------------------------------- registry

  /** One property of a tool's input schema: its name, the values its
      `enum` allows (empty when it has none) and its declared `default`
      (None when it has none) */
  datatype Property = Property(name: string, choices: seq<string>, default: Option<Json>)

  /** A tool as `list_tools` announces it: its name, the properties of its
      input schema in declaration order and its `required` list */
  datatype ToolDef = ToolDef(name: string, properties: seq<Property>, required: seq<string>)

  /** A property with no enum and no default */
  function Plain(name: string): (p: Property)
    ensures p.name == name && p.choices == [] && p.default == None
  {
    Property(name, [], None)
  }

  function PropertyNames(t: ToolDef): (ns: seq<string>)
    ensures |ns| == |t.properties|
    ensures forall i :: 0 <= i < |ns| ==> ns[i] == t.properties[i].name
  {
    seq(|t.properties|, i requires 0 <= i < |t.properties| => t.properties[i].name)
  }

  function ToolNames(ts: seq<ToolDef>): (ns: seq<string>)
    ensures |ns| == |ts|
    ensures forall i :: 0 <= i < |ns| ==> ns[i] == ts[i].name
  {
    seq(|ts|, i requires 0 <= i < |ts| => ts[i].name)
  }

  /** Every declared default is one of the allowed values when an enum is given */
  predicate DefaultsAllowed(t: ToolDef) {
    forall i :: 0 <= i < |t.properties| && t.properties[i].default.Some? && t.properties[i].choices != [] ==>
      t.properties[i].default.value.JStr? && t.properties[i].default.value.s in t.properties[i].choices
  }

  /** The schema is internally consistent: property names are distinct,
      every required name is a property, and every declared default is one
      of the allowed values when an enum is given */
  predicate WellFormed(t: ToolDef) {
    && Distinct(PropertyNames(t))
    && (forall k :: k in t.required ==> k in PropertyNames(t))
    && DefaultsAllowed(t)
  }

  /** The declared default of the first property named `k`; None when it
      declares none or there is no such property */
  function DefaultIn(ps: seq<Property>, k: string): (d: Option<Json>)
    ensures d.Some? ==> exists p :: p in ps && p.name == k && p.default == d
  {
    if |ps| == 0 then None
    else if ps[0].name == k then ps[0].default
    else DefaultIn(ps[1..], k)
  }

  /** The value a tool's schema leads a caller to expect for the client
      parameter `k`: the argument when given, else the declared default,
      else None; a parameter the schema does not declare is always None */
  function Expected(t: ToolDef, arguments: Members, k: string): Json {
    if k !in PropertyNames(t) then JNull
    else if Has(arguments, k) then Field(arguments, k)
    else DefaultIn(t.properties, k).GetOr(JNull)
  }

  /** The first key of `ks` that `arguments` lacks */
  function FirstMissing(ks: seq<string>, arguments: Members): (m: Option<string>)
    ensures m.None? <==> forall k :: k in ks ==> Has(arguments, k)
    ensures m.Some? ==> m.value in ks && !Has(arguments, m.value)
  {
    if |ks| == 0 then None
    else if !Has(arguments, ks[0]) then Some(ks[0])
    else FirstMissing(ks[1..], arguments)
  }

  // -------------------------------------------------------------- arguments

  /** `arguments[k]`: raises KeyError when the key is missing */
  function Required(arguments: Members, k: string): (r: Result<Json>)
    ensures r.Ok? <==> Has(arguments, k)
    ensures r.Ok? ==> Get(arguments, k) == Some(r.value)
    ensures r.Err? ==> r.error == KeyErrorText(k)
  {
    if Has(arguments, k) then Ok(Field(arguments, k)) else Err(KeyErrorText(k))
  }

  /** `arguments.get(k, default)`: the value when the key is present, even a null one */
  function Optional(arguments: Members, k: string, default: Json): (v: Json)
    ensures Has(arguments, k) ==> Some(v) == Get(arguments, k)
    ensures !Has(arguments, k) ==> v == default
  {
    FieldOr(arguments, k, default)
  }

  // --------------------------------------------------------------- dispatch

  datatype Arg = Req(key: string) | Opt(key: string, default: Json)

  function ArgKeys(args: seq<Arg>): (ks: seq<string>)
    ensures |ks| == |args|
    ensures forall i :: 0 <= i < |ks| ==> ks[i] == args[i].key
  {
    seq(|args|, i requires 0 <= i < |args| => args[i].key)
  }

  /** The keys read with `arguments[k]`, in reading order */
  function RequiredKeys(args: seq<Arg>): seq<string> {
    if |args| == 0 then []
    else (if args[0].Req? then [args[0].key] else []) + RequiredKeys(args[1..])
  }

  function Read(arguments: Members, arg: Arg): (r: Result<Json>)
    ensures r.Ok? <==> arg.Opt? || Has(arguments, arg.key)
    ensures r.Ok? ==> r.value == if Has(arguments, arg.key) then Field(arguments, arg.key) else arg.default
    ensures r.Err? ==> r.error == KeyErrorText(arg.key)
  {
    match arg
    case Req(k) => Required(arguments, k)
    case Opt(k, d) => Ok(Optional(arguments, k, d))
  }

  /** The arguments of one client call, read left to right: the first
      required key that is missing raises, and nothing after it is read */
  function ReadAll(arguments: Members, args: seq<Arg>): (r: Result<seq<Json>>)
    ensures r.Ok? <==> forall i :: 0 <= i < |args| && args[i].Req? ==> Has(arguments, args[i].key)
    ensures r.Ok? ==> |r.value| == |args| && forall i :: 0 <= i < |args| ==> Read(arguments, args[i]) == Ok(r.value[i])
  {
    if |args| == 0 then Ok([])
    else
      var v :- Read(arguments, args[0]);
      var vs :- ReadAll(arguments, args[1..]);
      Ok([v] + vs)
  }

  /** The reads raise exactly when a required key is missing, and the
      KeyError names the first missing one in reading order */
  lemma {:induction false} ReadAllRaises(arguments: Members, args: seq<Arg>)
    ensures ReadAll(arguments, args).Ok? <==> FirstMissing(RequiredKeys(args), arguments).None?
    ensures ReadAll(arguments, args).Err? ==>
      ReadAll(arguments, args).error == KeyErrorText(FirstMissing(RequiredKeys(args), arguments).value)
  {
    if |args| > 0 {
      ReadAllRaises(arguments, args[1..]);
      var rest := RequiredKeys(args[1..]);
      if args[0].Req? {
        assert RequiredKeys(args) == [args[0].key] + rest;
        assert ([args[0].key] + rest)[1..] == rest;
      } else {
        assert RequiredKeys(args) == rest;
      }
    }
  }

  /** One branch of the `if`/`elif` chain of `call_tool`: the tool name it
      tests and the client method's positional arguments it reads */
  datatype Branch = Branch(name: string, args: seq<Arg>)

  /** The schema declares exactly the arguments the dispatcher reads, in the
      same order: the first ones are read with `arguments[k]` and are the
      required ones, in the order of the `required` list; the rest are read
      with `arguments.get(k, d)`, `d` being the property's declared default */
  predicate Declares(t: ToolDef, args: seq<Arg>) {
    && |args| == |t.properties|
    && |t.required| <= |args|
    && forall i :: 0 <= i < |args| ==> ReadsProperty(t, i, args[i])
  }

  /** The `i`-th read is the `i`-th declared property, as described above */
  predicate ReadsProperty(t: ToolDef, i: nat, a: Arg) {
    && i < |t.properties|
    && a.key == t.properties[i].name
    && (a.Req? <==> i < |t.required|)
    && (a.Req? ==> t.required[i] == a.key)
    && (a.Opt? ==> a.default == t.properties[i].default.GetOr(JNull))
  }

  /** `Declares`, established part by part */
  lemma DeclaredBy(t: ToolDef, args: seq<Arg>)
    requires |args| == |t.properties|
    requires |t.required| <= |args|
    requires forall i :: 0 <= i < |args| ==> ReadsProperty(t, i, args[i])
    ensures Declares(t, args)
  {
  }

  /** Under `Declares` the keys read with `arguments[k]` are exactly the
      schema's `required` list, in order */
  lemma {:induction false} DeclaredRequiredKeys(required: seq<string>, args: seq<Arg>)
    requires |required| <= |args|
    requires forall i :: 0 <= i < |args| ==> (args[i].Req? <==> i < |required|)
    requires forall i :: 0 <= i < |required| ==> args[i].key == required[i]
    ensures RequiredKeys(args) == required
  {
    if |args| > 0 {
      if |required| > 0 {
        DeclaredRequiredKeys(required[1..], args[1..]);
        assert [args[0].key] + required[1..] == required;
      } else {
        DeclaredRequiredKeys(required, args[1..]);
      }
    }
  }

  /** With distinct property names, the default found by name is the one
      declared at that property's position */
  lemma {:induction false} DefaultAt(ps: seq<Property>, i: nat)
    requires i < |ps|
    requires forall j :: 0 <= j < i ==> ps[j].name != ps[i].name
    ensures DefaultIn(ps, ps[i].name) == ps[i].default
  {
    if i > 0 {
      DefaultAt(ps[1..], i - 1);
    }
  }

  /** A schema that declares the reads requires only properties it has */
  lemma DeclaredRequiredAreProperties(t: ToolDef, args: seq<Arg>)
    requires Declares(t, args)
    ensures forall k :: k in t.required ==> k in PropertyNames(t)
  {
    forall k | k in t.required
      ensures k in PropertyNames(t)
    {
      var i :| 0 <= i < |t.required| && t.required[i] == k;
      assert ReadsProperty(t, i, args[i]);
      assert PropertyNames(t)[i] == k;
    }
  }

  /** Under `Declares` the reads raise exactly when a required property is
      missing, and the KeyError names the first one in the `required` list */
  lemma DeclaredRaises(t: ToolDef, args: seq<Arg>, arguments: Members)
    requires Declares(t, args)
    ensures ReadAll(arguments, args).Ok? <==> FirstMissing(t.required, arguments).None?
    ensures ReadAll(arguments, args).Err? ==>
      ReadAll(arguments, args).error == KeyErrorText(FirstMissing(t.required, arguments).value)
  {
    forall i | 0 <= i < |args|
      ensures args[i].Req? <==> i < |t.required|
    {
      assert ReadsProperty(t, i, args[i]);
    }
    forall i | 0 <= i < |t.required|
      ensures args[i].key == t.required[i]
    {
      assert ReadsProperty(t, i, args[i]);
    }
    DeclaredRequiredKeys(t.required, args);
    ReadAllRaises(arguments, args);
  }

  /** When the reads succeed, each value read is what the schema leads a
      caller to expect: the argument when given, else the declared default */
  lemma ReadsFollowSchema(t: ToolDef, args: seq<Arg>, arguments: Members)
    requires Declares(t, args) && Distinct(PropertyNames(t))
    requires ReadAll(arguments, args).Ok?
    ensures forall i :: 0 <= i < |args| ==>
      ReadAll(arguments, args).value[i] == Expected(t, arguments, args[i].key)
  {
    var vs := ReadAll(arguments, args).value;
    forall i | 0 <= i < |args|
      ensures vs[i] == Expected(t, arguments, args[i].key)
    {
      var k := args[i].key;
      assert ReadsProperty(t, i, args[i]);
      assert PropertyNames(t)[i] == k;
      if args[i].Opt? {
        forall j | 0 <= j < i
          ensures t.properties[j].name != k
        {
          assert PropertyNames(t)[j] == t.properties[j].name;
        }
        DefaultAt(t.properties, i);
      }
    }
  }

  /** Passing the values read, in order, to a method with signature `sig`
      binds each to the parameter named like the argument it was read
      from, and leaves only parameters that have defaults */
  predicate Fits(sig: seq<Param>, args: seq<Arg>) {
    && |args| <= |sig|
    && (forall j :: 0 <= j < |args| ==> sig[j].name == args[j].key)
    && (forall j :: |args| <= j < |sig| ==> sig[j].default.Some?)
  }

  // ------------------------------------------------------------------- tool

  /** A tool: what `list_tools` announces for it and what its branch of
      `call_tool` reads */
  datatype Tool = Tool(schema: ToolDef, branch: Branch)

  /** The branch tests the tool's name and reads exactly what the schema
      declares; the schema's property names are distinct and its defaults
      are allowed by its enums */
  predicate Consistent(t: Tool) {
    && t.branch.name == t.schema.name
    && Declares(t.schema, t.branch.args)
    && Distinct(PropertyNames(t.schema))
    && DefaultsAllowed(t.schema)
  }

  /** A tool whose branch and schema have been checked against each other */
  type CheckedTool = t: Tool | Consistent(t) witness Tool(ToolDef("", [], []), Branch("", []))

  /** Checks a tool, property by property */
  function Check(t: Tool): (c: CheckedTool)
    requires t.branch.name == t.schema.name
    requires |t.branch.args| == |t.schema.properties| && |t.schema.required| <= |t.branch.args|
    requires forall i :: 0 <= i < |t.branch.args| ==> ReadsProperty(t.schema, i, t.branch.args[i])
    requires forall i, j :: 0 <= i < j < |t.schema.properties| ==> t.schema.properties[i].name != t.schema.properties[j].name
    requires DefaultsAllowed(t.schema)
    ensures c == t
  {
    DeclaredBy(t.schema, t.branch.args);
    t
  }

  /** A checked tool's schema is well formed */
  lemma CheckedWellFormed(t: CheckedTool)
    ensures WellFormed(t.schema)
  {
    DeclaredRequiredAreProperties(t.schema, t.branch.args);
  }

  /** When no required argument is missing, the values a checked tool's
      branch reads bind to a signature that fits it: each parameter the
      schema declares receives what the schema leads a caller to expect,
      and each later parameter its default */
  lemma BindsAsDeclared(t: CheckedTool, sig: seq<Param>, arguments: Members)
    requires Fits(sig, t.branch.args)
    requires FirstMissing(t.schema.required, arguments).None?
    ensures ReadAll(arguments, t.branch.args).Ok?
    ensures var ws := Positional(sig, ReadAll(arguments, t.branch.args).value);
      && ws.Some?
      && |t.schema.properties| <= |sig|
      && (forall j :: 0 <= j < |t.schema.properties| ==>
            && sig[j].name == t.schema.properties[j].name
            && ws.value[j] == Expected(t.schema, arguments, sig[j].name))
      && (forall j :: |t.schema.properties| <= j < |sig| ==> ws.value[j] == sig[j].default.value)
  {
    var args := t.branch.args;
    DeclaredRaises(t.schema, args, arguments);
    ReadsFollowSchema(t.schema, args, arguments);
    forall j | 0 <= j < |args|
      ensures args[j].key == t.schema.properties[j].name
    {
      assert ReadsProperty(t.schema, j, args[j]);
    }
  }

  /** A tool together with the client method its branch calls; each
      server's tool module constrains it to a method of the branch's name
      that can take the values the branch reads */
  datatype Handler = Handler(tool: CheckedTool, callee: Method)

  // ------------------------------------------------------------------ reply

  /** `TextContent(type="text", text=...)` */
  datatype TextContent = TextContent(text: string)

  /** What `call_tool` returns for an unregistered name */
  function UnknownTool(name: string): (reply: seq<TextContent>)
    ensures |reply| == 1 && reply[0].text == "Unknown tool: " + name
  {
    [TextContent("Unknown tool: " + name)]
  }

  /** What `call_tool` returns once the client call has returned or raised:
      the serialised result, or `Error: ` and the exception's message */
  function Answer(outcome: Result<Json>, dumps: Json -> string): (reply: seq<TextContent>)
    ensures |reply| == 1
    ensures outcome.Ok? ==> reply[0].text == dumps(outcome.value)
    ensures outcome.Err? ==> reply[0].text == "Error: " + outcome.error
  {
    match outcome
    case Ok(v) => [TextContent(dumps(v))]
    case Err(e) => [TextContent("Error: " + e)]
  }
}
