/** JSON values as the Python code handles them after `json.loads`, together
    with the few Python built-ins the adapters apply to them: truthiness,
    `dict.get`, item assignment, `str()`, `len()`, iteration, subscripting and
    `str.lower()`. A built-in that would raise yields `Err` with the text
    `str(e)` of the exception. */
module Json {
  import opened Wrappers

  /** A JSON value. Objects keep their members in insertion order, as Python
      dicts do. Floating-point numbers are not modelled. */
  datatype Json =
    | JNull
    | JBool(b: bool)
    | JInt(n: int)
    | JStr(s: string)
    | JArr(items: seq<Json>)
    | JObj(members: seq<(string, Json)>)

  type Members = seq<(string, Json)>

  /** Python truthiness: None, False, 0, "", [] and {} are false */
  predicate Truthy(j: Json) {
    match j
    case JNull => false
    case JBool(b) => b
    case JInt(n) => n != 0
    case JStr(s) => |s| > 0
    case JArr(items) => |items| > 0
    case JObj(ms) => |ms| > 0
  }

  // ---------------------------------------------------------------- dicts

  function Keys(ms: Members): (ks: seq<string>)
    ensures |ks| == |ms|
    ensures forall i :: 0 <= i < |ms| ==> ks[i] == ms[i].0
  {
    seq(|ms|, i requires 0 <= i < |ms| => ms[i].0)
  }

  /** Position of the first member named `k`, or -1 when there is none */
  function IndexOf(ms: Members, k: string): (i: int)
    ensures -1 <= i < |ms|
    ensures 0 <= i ==> ms[i].0 == k
    ensures forall j :: 0 <= j < |ms| && (i < 0 || j < i) ==> ms[j].0 != k
  {
    IndexFrom(ms, k, 0)
  }

  /** Position of the first member named `k` at or after `start`, or -1 */
  function IndexFrom(ms: Members, k: string, start: nat): (i: int)
    requires start <= |ms|
    ensures i == -1 || start <= i < |ms|
    ensures 0 <= i ==> ms[i].0 == k
    ensures forall j :: start <= j < |ms| && (i < 0 || j < i) ==> ms[j].0 != k
    decreases |ms| - start
  {
    if start == |ms| then -1
    else if ms[start].0 == k then start
    else IndexFrom(ms, k, start + 1)
  }

  /** `k in d` */
  predicate Has(ms: Members, k: string) {
    IndexOf(ms, k) >= 0
  }

  /** `d[k]` when present */
  function Get(ms: Members, k: string): Option<Json> {
    var i := IndexOf(ms, k);
    if i < 0 then None else Some(ms[i].1)
  }

  /** `d.get(k)`: None when absent */
  function Field(ms: Members, k: string): Json {
    Get(ms, k).GetOr(JNull)
  }

  /** `d.get(k, default)` */
  function FieldOr(ms: Members, k: string, default: Json): Json {
    Get(ms, k).GetOr(default)
  }

  /** Members with equal key sequences find every key at the same position */
  lemma {:induction false} IndexOfByKeys(a: Members, b: Members, k: string)
    requires Keys(a) == Keys(b)
    ensures IndexOf(a, k) == IndexOf(b, k)
  {
    assert |a| == |b|;
    forall x | 0 <= x < |a|
      ensures a[x].0 == b[x].0
    {
      assert Keys(a)[x] == Keys(b)[x];
    }
  }

  /** `d[k] = v`: an existing key keeps its position and takes the new value;
      a new key is appended. Every other key reads as before. */
  function Put(ms: Members, k: string, v: Json): (r: Members)
    ensures Get(r, k) == Some(v)
    ensures forall k' :: k' != k ==> Get(r, k') == Get(ms, k')
    ensures Has(ms, k) ==> Keys(r) == Keys(ms)
    ensures !Has(ms, k) ==> r == ms + [(k, v)]
  {
    var i := IndexOf(ms, k);
    if i < 0 then
      var r := ms + [(k, v)];
      assert r[..|ms|] == ms;
      PutNewKey(ms, k, v);
      r
    else
      var r := ms[i := (k, v)];
      assert Keys(r) == Keys(ms);
      forall k' | k' != k
        ensures Get(r, k') == Get(ms, k')
      {
        IndexOfByKeys(r, ms, k');
      }
      r
  }

  /** Appending a new key leaves the reading of every other key unchanged */
  lemma {:induction false} PutNewKey(ms: Members, k: string, v: Json)
    requires !Has(ms, k)
    ensures IndexOf(ms + [(k, v)], k) == |ms|
    ensures forall k' :: k' != k ==> IndexOf(ms + [(k, v)], k') == IndexOf(ms, k')
  {
    var r := ms + [(k, v)];
    assert forall x :: 0 <= x < |ms| ==> r[x] == ms[x];
    assert r[|ms|].0 == k;
    assert IndexOf(ms, k) < 0;
  }

  /** Looking a key up in a concatenation: the left part is searched first */
  lemma {:induction false} IndexOfAppend(a: Members, b: Members, k: string)
    ensures Has(a, k) ==> IndexOf(a + b, k) == IndexOf(a, k)
    ensures !Has(a, k) ==> IndexOf(a + b, k) == (if Has(b, k) then |a| + IndexOf(b, k) else -1)
  {
    var ab := a + b;
    assert forall x :: 0 <= x < |a| ==> ab[x] == a[x];
    assert forall x :: 0 <= x < |b| ==> ab[|a| + x] == b[x];
    var i, j, m := IndexOf(a, k), IndexOf(b, k), IndexOf(ab, k);
    if m >= |a| {
      assert b[m - |a|].0 == k;
    }
  }

  /** Reading a key from a concatenation */
  lemma GetAppend(a: Members, b: Members, k: string)
    ensures Get(a + b, k) == if Has(a, k) then Get(a, k) else Get(b, k)
  {
    IndexOfAppend(a, b, k);
    var ab := a + b;
    assert forall x :: 0 <= x < |b| ==> ab[|a| + x] == b[x];
  }

  // --------------------------------------------------------- dict displays

  /** No string occurs twice */
  predicate Distinct(ks: seq<string>) {
    forall i, j :: 0 <= i < j < |ks| ==> ks[i] != ks[j]
  }

  /** Length, first and last character: two strings that differ here differ */
  function Fingerprint(s: string): (int, char, char) {
    if |s| == 0 then (0, ' ', ' ') else (|s|, s[0], s[|s| - 1])
  }

  /** Names whose fingerprints are pairwise different are distinct */
  lemma DistinctByFingerprint(ks: seq<string>)
    requires forall i, j :: 0 <= i < j < |ks| ==> Fingerprint(ks[i]) != Fingerprint(ks[j])
    ensures Distinct(ks)
  {
  }

  /** The position of the first of `names` equal to `name`, None when there
      is none: the branch an `if`/`elif` chain on `name` takes */
  function Position(names: seq<string>, name: string): (r: Option<nat>)
    ensures r.None? <==> name !in names
    ensures r.Some? ==> r.value < |names| && names[r.value] == name
    ensures r.Some? ==> forall j :: 0 <= j < r.value ==> names[j] != name
  {
    if |names| == 0 then None
    else if names[0] == name then Some(0)
    else match Position(names[1..], name)
      case None => None
      case Some(i) => Some(i + 1)
  }

  /** Among distinct names each is found at its own position */
  lemma PositionOfDistinct(names: seq<string>, i: nat)
    requires Distinct(names) && i < |names|
    ensures Position(names, names[i]) == Some(i)
  {
  }

  /** The dict built by a display of distinct keys followed by conditional
      assignments of further fresh keys: key `ks[i]` holds `vs[i]` and is
      present only when `ps[i]`, and present keys keep their order */
  function Object(ks: seq<string>, vs: seq<Json>, ps: seq<bool>): (ms: Members)
    requires |ks| == |vs| == |ps|
  {
    ObjectFrom(ks, vs, ps, 0)
  }

  /** The members contributed by entries `start` onwards */
  function ObjectFrom(ks: seq<string>, vs: seq<Json>, ps: seq<bool>, start: nat): (ms: Members)
    requires |ks| == |vs| == |ps| && start <= |ks|
    decreases |ks| - start
  {
    if start == |ks| then []
    else (if ps[start] then [(ks[start], vs[start])] else []) + ObjectFrom(ks, vs, ps, start + 1)
  }

  /** A key that no present entry from `start` on uses is absent */
  lemma {:induction false} ObjectAbsent(ks: seq<string>, vs: seq<Json>, ps: seq<bool>, start: nat, k: string)
    requires |ks| == |vs| == |ps| && start <= |ks|
    requires forall i :: start <= i < |ks| ==> ks[i] != k || !ps[i]
    ensures Get(ObjectFrom(ks, vs, ps, start), k) == None
    decreases |ks| - start
  {
    if start < |ks| {
      ObjectAbsent(ks, vs, ps, start + 1, k);
      var head: Members := if ps[start] then [(ks[start], vs[start])] else [];
      GetAppend(head, ObjectFrom(ks, vs, ps, start + 1), k);
    }
  }

  /** Each key reads as its value when present and is missing otherwise */
  lemma ObjectGet(ks: seq<string>, vs: seq<Json>, ps: seq<bool>, i: nat)
    requires |ks| == |vs| == |ps| && Distinct(ks) && i < |ks|
    ensures Get(Object(ks, vs, ps), ks[i]) == if ps[i] then Some(vs[i]) else None
  {
    ObjectGetFrom(ks, vs, ps, 0, i);
  }

  lemma {:induction false} ObjectGetFrom(ks: seq<string>, vs: seq<Json>, ps: seq<bool>, start: nat, i: nat)
    requires |ks| == |vs| == |ps| && Distinct(ks) && start <= i < |ks|
    ensures Get(ObjectFrom(ks, vs, ps, start), ks[i]) == if ps[i] then Some(vs[i]) else None
    decreases |ks| - start
  {
    var head: Members := if ps[start] then [(ks[start], vs[start])] else [];
    GetAppend(head, ObjectFrom(ks, vs, ps, start + 1), ks[i]);
    if i == start {
      ObjectAbsent(ks, vs, ps, start + 1, ks[i]);
    } else {
      ObjectGetFrom(ks, vs, ps, start + 1, i);
    }
  }

  /** Every member comes from a present entry: the dict holds no other key */
  lemma ObjectHoldsOnlyPresent(ks: seq<string>, vs: seq<Json>, ps: seq<bool>)
    requires |ks| == |vs| == |ps|
    ensures forall m :: m in Object(ks, vs, ps) ==> exists i :: 0 <= i < |ks| && ps[i] && m.0 == ks[i]
  {
    ObjectHoldsOnlyPresentFrom(ks, vs, ps, 0);
  }

  lemma {:induction false} ObjectHoldsOnlyPresentFrom(ks: seq<string>, vs: seq<Json>, ps: seq<bool>, start: nat)
    requires |ks| == |vs| == |ps| && start <= |ks|
    ensures forall m :: m in ObjectFrom(ks, vs, ps, start) ==> exists i :: start <= i < |ks| && ps[i] && m.0 == ks[i]
    decreases |ks| - start
  {
    if start < |ks| {
      ObjectHoldsOnlyPresentFrom(ks, vs, ps, start + 1);
    }
  }

  /** The same for displays of three, four, five, seven and nine entries,
      spelled out entry by entry */
  lemma ObjectOfThreeHoldsOnlyPresent(ks: seq<string>, vs: seq<Json>, ps: seq<bool>)
    requires |ks| == |vs| == |ps| == 3
    ensures forall m :: m in Object(ks, vs, ps) ==>
      || (m.0 == ks[0] && ps[0]) || (m.0 == ks[1] && ps[1]) || (m.0 == ks[2] && ps[2])
  {
    ObjectHoldsOnlyPresent(ks, vs, ps);
  }

  lemma ObjectOfFourHoldsOnlyPresent(ks: seq<string>, vs: seq<Json>, ps: seq<bool>)
    requires |ks| == |vs| == |ps| == 4
    ensures forall m :: m in Object(ks, vs, ps) ==>
      || (m.0 == ks[0] && ps[0]) || (m.0 == ks[1] && ps[1]) || (m.0 == ks[2] && ps[2])
      || (m.0 == ks[3] && ps[3])
  {
    ObjectHoldsOnlyPresent(ks, vs, ps);
  }

  lemma ObjectOfFiveHoldsOnlyPresent(ks: seq<string>, vs: seq<Json>, ps: seq<bool>)
    requires |ks| == |vs| == |ps| == 5
    ensures forall m :: m in Object(ks, vs, ps) ==>
      || (m.0 == ks[0] && ps[0]) || (m.0 == ks[1] && ps[1]) || (m.0 == ks[2] && ps[2])
      || (m.0 == ks[3] && ps[3]) || (m.0 == ks[4] && ps[4])
  {
    ObjectHoldsOnlyPresent(ks, vs, ps);
  }

  lemma ObjectOfSevenHoldsOnlyPresent(ks: seq<string>, vs: seq<Json>, ps: seq<bool>)
    requires |ks| == |vs| == |ps| == 7
    ensures forall m :: m in Object(ks, vs, ps) ==>
      || (m.0 == ks[0] && ps[0]) || (m.0 == ks[1] && ps[1]) || (m.0 == ks[2] && ps[2])
      || (m.0 == ks[3] && ps[3]) || (m.0 == ks[4] && ps[4]) || (m.0 == ks[5] && ps[5])
      || (m.0 == ks[6] && ps[6])
  {
    ObjectHoldsOnlyPresent(ks, vs, ps);
  }

  /** Nine entries take their keys and flags one by one, which spares the
      solver indexing a long display */
  lemma ObjectOfNineHoldsOnlyPresent(k0: string, k1: string, k2: string, k3: string, k4: string,
                                     k5: string, k6: string, k7: string, k8: string, vs: seq<Json>,
                                     p0: bool, p1: bool, p2: bool, p3: bool, p4: bool,
                                     p5: bool, p6: bool, p7: bool, p8: bool)
    requires |vs| == 9
    ensures forall m :: m in Object([k0, k1, k2, k3, k4, k5, k6, k7, k8], vs, [p0, p1, p2, p3, p4, p5, p6, p7, p8]) ==>
      || (m.0 == k0 && p0) || (m.0 == k1 && p1) || (m.0 == k2 && p2)
      || (m.0 == k3 && p3) || (m.0 == k4 && p4) || (m.0 == k5 && p5)
      || (m.0 == k6 && p6) || (m.0 == k7 && p7) || (m.0 == k8 && p8)
  {
    ObjectHoldsOnlyPresent([k0, k1, k2, k3, k4, k5, k6, k7, k8], vs, [p0, p1, p2, p3, p4, p5, p6, p7, p8]);
  }

  /** A key that no present entry uses is absent */
  lemma ObjectMissing(ks: seq<string>, vs: seq<Json>, ps: seq<bool>, k: string)
    requires |ks| == |vs| == |ps|
    requires forall i :: 0 <= i < |ks| ==> ks[i] != k || !ps[i]
    ensures Get(Object(ks, vs, ps), k) == None
  {
    ObjectAbsent(ks, vs, ps, 0, k);
  }

  /** `{k: v}`: an object with one member, such as `{"name": priority}` */
  function Single(k: string, v: Json): (j: Json)
    ensures j.JObj? && Get(j.members, k) == Some(v) && |j.members| == 1
  {
    JObj([(k, v)])
  }

  /** With every member present, the object has exactly the given keys in order */
  lemma ObjectKeys(ks: seq<string>, vs: seq<Json>, ps: seq<bool>)
    requires |ks| == |vs| == |ps|
    requires forall i :: 0 <= i < |ps| ==> ps[i]
    ensures Keys(Object(ks, vs, ps)) == ks
  {
    ObjectKeysFrom(ks, vs, ps, 0);
  }

  lemma {:induction false} ObjectKeysFrom(ks: seq<string>, vs: seq<Json>, ps: seq<bool>, start: nat)
    requires |ks| == |vs| == |ps| && start <= |ks|
    requires forall i :: start <= i < |ps| ==> ps[i]
    ensures Keys(ObjectFrom(ks, vs, ps, start)) == ks[start..]
    decreases |ks| - start
  {
    if start < |ks| {
      ObjectKeysFrom(ks, vs, ps, start + 1);
      var rest := ObjectFrom(ks, vs, ps, start + 1);
      assert ObjectFrom(ks, vs, ps, start) == [(ks[start], vs[start])] + rest;
      assert Keys([(ks[start], vs[start])] + rest) == [ks[start]] + Keys(rest);
      assert ks[start..] == [ks[start]] + ks[start + 1..];
    }
  }

  /** With every conditional entry left out, the dict is empty */
  lemma ObjectEmpty(ks: seq<string>, vs: seq<Json>, ps: seq<bool>)
    requires |ks| == |vs| == |ps|
    requires forall i :: 0 <= i < |ps| ==> !ps[i]
    ensures Object(ks, vs, ps) == []
  {
    ObjectEmptyFrom(ks, vs, ps, 0);
  }

  lemma {:induction false} ObjectEmptyFrom(ks: seq<string>, vs: seq<Json>, ps: seq<bool>, start: nat)
    requires |ks| == |vs| == |ps| && start <= |ks|
    requires forall i :: start <= i < |ps| ==> !ps[i]
    ensures ObjectFrom(ks, vs, ps, start) == []
    decreases |ks| - start
  {
    if start < |ks| {
      ObjectEmptyFrom(ks, vs, ps, start + 1);
    }
  }

  // ------------------------------------------------------------ str() / repr()

  /** Python's type name as it appears in TypeError and AttributeError messages */
  function TypeName(j: Json): string {
    match j
    case JNull => "NoneType"
    case JBool(_) => "bool"
    case JInt(_) => "int"
    case JStr(_) => "str"
    case JArr(_) => "list"
    case JObj(_) => "dict"
  }

  function DigitChar(d: nat): char
    requires d < 10
  {
    "0123456789"[d]
  }

  /** Decimal digits of a natural number, most significant first */
  function Digits(n: nat): (s: string)
    ensures |s| > 0
    ensures forall i :: 0 <= i < |s| ==> '0' <= s[i] <= '9'
  {
    if n < 10 then [DigitChar(n)] else Digits(n / 10) + [DigitChar(n % 10)]
  }

  /** `str(n)` for an int */
  function Decimal(n: int): string {
    if n < 0 then "-" + Digits(-n) else Digits(n)
  }

  /** `sep.join(parts)` */
  function Join(parts: seq<string>, sep: string): string {
    if |parts| == 0 then ""
    else if |parts| == 1 then parts[0]
    else parts[0] + sep + Join(parts[1..], sep)
  }

  /** `str(j)`, as an f-string interpolates it */
  function Str(j: Json): string {
    match j
    case JStr(s) => s
    case _ => Repr(j)
  }

  /** `repr(j)`; strings are always shown in single quotes, without escapes */
  function Repr(j: Json): string {
    match j
    case JNull => "None"
    case JBool(b) => if b then "True" else "False"
    case JInt(n) => Decimal(n)
    case JStr(s) => "'" + s + "'"
    case JArr(items) =>
      "[" + Join(seq(|items|, i requires 0 <= i < |items| => Repr(items[i])), ", ") + "]"
    case JObj(ms) =>
      "{" + Join(seq(|ms|, i requires 0 <= i < |ms| => "'" + ms[i].0 + "': " + Repr(ms[i].1)), ", ") + "}"
  }

  // ---------------------------------------------------------- other built-ins

  function LowerChar(c: char): char {
    if 'A' <= c <= 'Z' then (c as int + 32) as char else c
  }

  /** `s.lower()`, restricted to ASCII letters */
  function Lower(s: string): (r: string)
    ensures |r| == |s|
  {
    seq(|s|, i requires 0 <= i < |s| => LowerChar(s[i]))
  }

  /** `str(KeyError(k))` */
  function KeyErrorText(k: string): string {
    "'" + k + "'"
  }

  /** The AttributeError raised by `j.attr` on a value that lacks it */
  function NoAttribute(j: Json, attr: string): string {
    "'" + TypeName(j) + "' object has no attribute '" + attr + "'"
  }

  /** The TypeError raised by `for x in j` on a value that is not iterable */
  function NotIterable(j: Json): string {
    "'" + TypeName(j) + "' object is not iterable"
  }

  /** `for x in j`: a list yields its items, a dict its keys, a str its characters */
  function Iterate(j: Json): (r: Result<seq<Json>>)
    ensures r.Ok? <==> (j.JArr? || j.JObj? || j.JStr?)
    ensures j.JArr? ==> r == Ok(j.items)
    ensures r.Ok? && !j.JArr? ==> forall x :: x in r.value ==> x.JStr?
  {
    match j
    case JArr(items) => Ok(items)
    case JObj(ms) => Ok(seq(|ms|, i requires 0 <= i < |ms| => JStr(ms[i].0)))
    case JStr(s) => Ok(seq(|s|, i requires 0 <= i < |s| => JStr([s[i]])))
    case _ => Err(NotIterable(j))
  }

  /** `len(j)` */
  function Len(j: Json): (r: Result<nat>)
    ensures r.Ok? <==> Iterate(j).Ok?
    ensures r.Ok? ==> r.value == |Iterate(j).value|
  {
    match j
    case JArr(items) => Ok(|items|)
    case JObj(ms) => Ok(|ms|)
    case JStr(s) => Ok(|s|)
    case _ => Err("object of type '" + TypeName(j) + "' has no len()")
  }

  /** `j[key]` with a str key */
  function Subscript(j: Json, key: string): (r: Result<Json>)
    ensures r.Ok? <==> j.JObj? && Has(j.members, key)
    ensures r.Ok? ==> Get(j.members, key) == Some(r.value)
    ensures j.JObj? && !Has(j.members, key) ==> r == Err(KeyErrorText(key))
  {
    match j
    case JObj(ms) => if Has(ms, key) then Ok(Field(ms, key)) else Err(KeyErrorText(key))
    case JArr(_) => Err("list indices must be integers or slices, not str")
    case JStr(_) => Err("string indices must be integers, not 'str'")
    case _ => Err("'" + TypeName(j) + "' object is not subscriptable")
  }

  /** `j.lower()` */
  function LowerOf(j: Json): (r: Result<string>)
    ensures r.Ok? <==> j.JStr?
    ensures r.Ok? ==> r.value == Lower(j.s)
  {
    match j
    case JStr(s) => Ok(Lower(s))
    case _ => Err(NoAttribute(j, "lower"))
  }

  /** `j.get(key, default)`, which only a dict supports */
  function DictGet(j: Json, key: string, default: Json): (r: Result<Json>)
    ensures r.Ok? <==> j.JObj?
    ensures r.Ok? && Has(j.members, key) ==> Get(j.members, key) == Some(r.value)
    ensures r.Ok? && !Has(j.members, key) ==> r.value == default
  {
    match j
    case JObj(ms) => Ok(FieldOr(ms, key, default))
    case _ => Err(NoAttribute(j, "get"))
  }
}
