/** Python method signatures and positional calls: how the values a caller
    passes, in order, bind to a method's parameters. */
module Signatures {
  import opened Wrappers
  import opened Json

  /** One parameter of a Python method (after `self`): its name and its
      default value, None when it has none */
  datatype Param = Param(name: string, default: Option<Json>)

  /** A client method: its Python name and its signature, `self` left out */
  datatype Method = Method(name: string, params: seq<Param>)

  /** A parameter with no default */
  function Needed(name: string): (p: Param)
    ensures p.name == name && p.default.None?
  {
    Param(name, None)
  }

  /** A parameter whose default is `None` */
  function NoneByDefault(name: string): (p: Param)
    ensures p.name == name && p.default == Some(JNull)
  {
    Param(name, Some(JNull))
  }

  function ParamNames(sig: seq<Param>): (ns: seq<string>)
    ensures |ns| == |sig|
    ensures forall j :: 0 <= j < |sig| ==> ns[j] == sig[j].name
  {
    seq(|sig|, j requires 0 <= j < |sig| => sig[j].name)
  }

  /** Python's positional binding: the values passed fill the first
      parameters in order and every remaining parameter takes its default.
      None where Python raises TypeError: more values than parameters, or a
      remaining parameter without a default. */
  function Positional(sig: seq<Param>, vs: seq<Json>): (ws: Option<seq<Json>>)
    ensures ws.Some? <==> |vs| <= |sig| && forall j :: |vs| <= j < |sig| ==> sig[j].default.Some?
    ensures ws.Some? ==> |ws.value| == |sig|
    ensures ws.Some? ==> forall j :: 0 <= j < |vs| ==> ws.value[j] == vs[j]
    ensures ws.Some? ==> forall j :: |vs| <= j < |sig| ==> ws.value[j] == sig[j].default.value
    decreases |sig| - |vs|
  {
    if |vs| >= |sig| then
      if |vs| == |sig| then Some(vs) else None
    else
      match sig[|vs|].default
      case None => None
      case Some(d) => Positional(sig, vs + [d])
  }
}
