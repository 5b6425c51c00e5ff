/** JSON-like values as Python holds them after `json.loads` (dicts keep
    insertion order), the exceptions the core raises, and the handful of
    Python built-ins the core applies to such values (`in`, `len`, `[]`,
    `.get`, iteration, truthiness, `str`). */
module Values {
  import opened Text
  import opened Options

  datatype Json =
    | JNull
    | JBool(b: bool)
    | JInt(i: int)
    | JFloat(text: string)  // a float, kept as its decimal text
    | JStr(s: string)
    | JArr(items: seq<Json>)
    | JObj(entries: Dict)

  /** A Python dict with string keys, in insertion order. */
  type Dict = seq<(string, Json)>

  datatype ErrorKind = ValueError | TypeError | AttributeError | KeyError | IndexError | TransportError

  /** A raised exception; `message` plays the part of `str(e)`. */
  datatype PyError = PyError(kind: ErrorKind, message: string)

  /** The result of Python code that either returns or raises. */
  datatype Outcome<+T> = Returned(value: T) | Raised(error: PyError) {
    predicate IsFailure() { Raised? }

    function PropagateFailure<U>(): Outcome<U>
      requires Raised?
    {
      Raised(error)
    }

    function Extract(): T
      requires Returned?
    {
      value
    }
  }

  // ---------------------------------------------------------------- dicts

  function Keys(d: Dict): (ks: seq<string>)
    ensures |ks| == |d|
    ensures forall i :: 0 <= i < |d| ==> ks[i] == d[i].0
  {
    if d == [] then [] else [d[0].0] + Keys(d[1..])
  }

  predicate HasKey(d: Dict, k: string) { k in Keys(d) }

  /** `d.get(k)`: the value stored under `k`, if any. */
  function Get(d: Dict, k: string): (r: Option<Json>)
    ensures r.Some? <==> HasKey(d, k)
  {
    if d == [] then None
    else if d[0].0 == k then Some(d[0].1)
    else
      assert Keys(d) == [d[0].0] + Keys(d[1..]);
      Get(d[1..], k)
  }

  /** Looking up in a dict with one entry in front of `d`. */
  lemma GetFront(e: (string, Json), d: Dict, k: string)
    ensures Get([e] + d, k) == if e.0 == k then Some(e.1) else Get(d, k)
  {
    assert ([e] + d)[1..] == d;
  }

  /** The dict literal `{a, b, c, d}` with four distinct keys. */
  function Record4(a: (string, Json), b: (string, Json), c: (string, Json), d: (string, Json)): (r: Dict)
    requires a.0 != b.0 && a.0 != c.0 && a.0 != d.0 && b.0 != c.0 && b.0 != d.0 && c.0 != d.0
    ensures Get(r, a.0) == Some(a.1) && Get(r, b.0) == Some(b.1)
    ensures Get(r, c.0) == Some(c.1) && Get(r, d.0) == Some(d.1)
  {
    var last := [d];
    var tail := [c] + last;
    var mid := [b] + tail;
    GetFront(d, [], d.0);
    GetFront(c, last, c.0);
    GetFront(c, last, d.0);
    GetFront(b, tail, b.0);
    GetFront(b, tail, c.0);
    GetFront(b, tail, d.0);
    GetFront(a, mid, a.0);
    GetFront(a, mid, b.0);
    GetFront(a, mid, c.0);
    GetFront(a, mid, d.0);
    [a] + mid
  }

  /** `d[k] = v`: an existing key keeps its place, a new key goes last. */
  function Put(d: Dict, k: string, v: Json): (r: Dict)
    ensures Get(r, k) == Some(v)
    ensures forall j :: j != k ==> Get(r, j) == Get(d, j)
    ensures Keys(r) == if HasKey(d, k) then Keys(d) else Keys(d) + [k]
  {
    if d == [] then [(k, v)]
    else if d[0].0 == k then
      var r := [(k, v)] + d[1..];
      assert r[1..] == d[1..];
      assert Keys(r) == Keys(d);
      r
    else
      var t := Put(d[1..], k, v);
      var r := [d[0]] + t;
      PutCons(d, k, t, r);
      r
  }

  lemma PutCons(d: Dict, k: string, t: Dict, r: Dict)
    requires d != [] && d[0].0 != k && r == [d[0]] + t
    requires Keys(t) == if HasKey(d[1..], k) then Keys(d[1..]) else Keys(d[1..]) + [k]
    requires forall j :: Get(t, j) == if j == k then Get(t, k) else Get(d[1..], j)
    ensures forall j :: Get(r, j) == if j == d[0].0 then Some(d[0].1) else Get(t, j)
    ensures Keys(r) == if HasKey(d, k) then Keys(d) else Keys(d) + [k]
  {
    assert r[1..] == t;
    assert Keys(d) == [d[0].0] + Keys(d[1..]);
    assert Keys(r) == [d[0].0] + Keys(t);
  }

  /** Assigning a key the value it already holds changes nothing. */
  lemma {:induction false} PutSame(d: Dict, k: string, v: Json)
    requires Get(d, k) == Some(v)
    ensures Put(d, k, v) == d
  {
    if d[0].0 != k {
      PutSame(d[1..], k, v);
    }
  }

  predicate UniqueKeys(d: Dict) {
    forall i, j :: 0 <= i < j < |d| ==> d[i].0 != d[j].0
  }

  lemma PutKeepsUnique(d: Dict, k: string, v: Json)
    requires UniqueKeys(d)
    ensures UniqueKeys(Put(d, k, v))
  {
    var r := Put(d, k, v);
    var kr := Keys(r);
    var kd := Keys(d);
    forall i, j | 0 <= i < j < |r|
      ensures r[i].0 != r[j].0
    {
      assert r[i].0 == kr[i] && r[j].0 == kr[j];
      if j < |d| {
        assert kr[i] == kd[i] == d[i].0 && kr[j] == kd[j] == d[j].0;
      } else {
        assert kr == kd + [k] && kr[j] == k;
        assert kr[i] == kd[i] && kd[i] in kd;
      }
    }
  }

  /** Assigning `d[k] = v` for each pair in turn. */
  function PutAll(d: Dict, pairs: Dict): Dict
    decreases |pairs|
  {
    if pairs == [] then d else PutAll(Put(d, pairs[0].0, pairs[0].1), pairs[1..])
  }

  /** The value of the last pair with key `k`, if any. */
  function LastFor(pairs: Dict, k: string): Option<Json> {
    if pairs == [] then None
    else
      var later := LastFor(pairs[1..], k);
      if later.Some? then later
      else if pairs[0].0 == k then Some(pairs[0].1)
      else None
  }

  /** After a run of assignments a key holds the value it was assigned
      last, or what it held before when it was never assigned. */
  lemma {:induction false} PutAllGet(d: Dict, pairs: Dict, k: string)
    ensures Get(PutAll(d, pairs), k) == if LastFor(pairs, k).Some? then LastFor(pairs, k) else Get(d, k)
    decreases |pairs|
  {
    if pairs != [] {
      PutAllGet(Put(d, pairs[0].0, pairs[0].1), pairs[1..], k);
    }
  }

  lemma {:induction false} PutAllKeepsUnique(d: Dict, pairs: Dict)
    requires UniqueKeys(d)
    ensures UniqueKeys(PutAll(d, pairs))
    decreases |pairs|
  {
    if pairs != [] {
      PutKeepsUnique(d, pairs[0].0, pairs[0].1);
      PutAllKeepsUnique(Put(d, pairs[0].0, pairs[0].1), pairs[1..]);
    }
  }

  /** The values of a dict in order. */
  function Values(d: Dict): (vs: seq<Json>)
    ensures |vs| == |d|
    ensures forall i :: 0 <= i < |d| ==> vs[i] == d[i].1
  {
    if d == [] then [] else [d[0].1] + Values(d[1..])
  }

  /** A Json object's entry `k`, if the value is an object that has one. */
  function Field(j: Json, k: string): Option<Json> {
    if j.JObj? then Get(j.entries, k) else None
  }

  // ------------------------------------------------------------- built-ins

  function TypeName(j: Json): string {
    match j
    case JNull => "NoneType"
    case JBool(_) => "bool"
    case JInt(_) => "int"
    case JFloat(_) => "float"
    case JStr(_) => "str"
    case JArr(_) => "list"
    case JObj(_) => "dict"
  }

  predicate FloatIsZero(t: string) {
    forall i :: 0 <= i < |t| ==> t[i] !in "123456789"
  }

  /** Python truthiness. */
  predicate Truthy(j: Json) {
    match j
    case JNull => false
    case JBool(b) => b
    case JInt(i) => i != 0
    case JFloat(t) => !FloatIsZero(t)
    case JStr(s) => s != ""
    case JArr(items) => items != []
    case JObj(entries) => entries != []
  }

  /** `str(j)`; strings inside containers are shown as `'s'` (without
      Python's escaping of quotes and control characters). */
  function PyStr(j: Json): string
    decreases j, 0
  {
    match j
    case JNull => "None"
    case JBool(b) => if b then "True" else "False"
    case JInt(i) => IntToString(i)
    case JFloat(t) => t
    case JStr(s) => s
    case JArr(items) =>
      "[" + Join(", ", seq(|items|, i requires 0 <= i < |items| => Repr(items[i]))) + "]"
    case JObj(d) =>
      "{" + Join(", ", seq(|d|, i requires 0 <= i < |d| => "'" + d[i].0 + "': " + Repr(d[i].1))) + "}"
  }

  /** `repr(j)`, as `str` shows the items of a container. */
  function Repr(j: Json): string
    decreases j, 1
  {
    if j.JStr? then "'" + j.s + "'" else PyStr(j)
  }

  /** How a value behaves as a key of a dict whose keys are strings:
      unhashable values raise, strings may be present, nothing else ever is. */
  function AsDictKey(key: Json): Outcome<Option<string>> {
    match key
    case JArr(_) => Raised(PyError(TypeError, "unhashable type: 'list'"))
    case JObj(_) => Raised(PyError(TypeError, "unhashable type: 'dict'"))
    case JStr(s) => Returned(Some(s))
    case _ => Returned(None)
  }

  /** `x in container`. */
  function In(x: Json, container: Json): Outcome<bool> {
    match container
    case JObj(d) =>
      var k :- AsDictKey(x);
      Returned(k.Some? && HasKey(d, k.value))
    case JArr(items) => Returned(x in items)
    case JStr(s) =>
      if x.JStr? then Returned(Contains(s, x.s))
      else Raised(PyError(TypeError, "'in <string>' requires string as left operand, not " + TypeName(x)))
    case _ => Raised(PyError(TypeError, "argument of type '" + TypeName(container) + "' is not iterable"))
  }

  /** A string is looked up in a dict by key and in a list by equality. */
  lemma InDictOrList(k: string, container: Json)
    requires container.JObj? || container.JArr?
    ensures container.JObj? ==> In(JStr(k), container) == Returned(HasKey(container.entries, k))
    ensures container.JArr? ==> In(JStr(k), container) == Returned(JStr(k) in container.items)
  {
  }

  /** `len(j)`. */
  function Len(j: Json): Outcome<nat> {
    match j
    case JStr(s) => Returned(|s|)
    case JArr(items) => Returned(|items|)
    case JObj(d) => Returned(|d|)
    case _ => Raised(PyError(TypeError, "object of type '" + TypeName(j) + "' has no len()"))
  }

  /** `list(j)`: what a `for` loop over `j` visits. */
  function Iterate(j: Json): Outcome<seq<Json>> {
    match j
    case JStr(s) => Returned(seq(|s|, i requires 0 <= i < |s| => JStr([s[i]])))
    case JArr(items) => Returned(items)
    case JObj(d) => Returned(seq(|d|, i requires 0 <= i < |d| => JStr(d[i].0)))
    case _ => Raised(PyError(TypeError, "'" + TypeName(j) + "' object is not iterable"))
  }

  /** `j[k]` for a string subscript. */
  function IndexStr(j: Json, k: string): Outcome<Json> {
    match j
    case JObj(d) =>
      if HasKey(d, k) then Returned(Get(d, k).value) else Raised(PyError(KeyError, "'" + k + "'"))
    case JArr(_) => Raised(PyError(TypeError, "list indices must be integers or slices, not str"))
    case JStr(_) => Raised(PyError(TypeError, "string indices must be integers"))
    case _ => Raised(PyError(TypeError, "'" + TypeName(j) + "' object is not subscriptable"))
  }

  /** `j[0]`. */
  function IndexZero(j: Json): Outcome<Json> {
    match j
    case JArr(items) =>
      if items != [] then Returned(items[0]) else Raised(PyError(IndexError, "list index out of range"))
    case JStr(s) =>
      if s != "" then Returned(JStr([s[0]])) else Raised(PyError(IndexError, "string index out of range"))
    case JObj(_) => Raised(PyError(KeyError, "0"))
    case _ => Raised(PyError(TypeError, "'" + TypeName(j) + "' object is not subscriptable"))
  }

  /** The error for `j.name` when `j` has no attribute `name`. */
  function NoAttribute(j: Json, name: string): PyError {
    PyError(AttributeError, "'" + TypeName(j) + "' object has no attribute '" + name + "'")
  }

  /** `j.get(k, default)`: only dicts have `get`. */
  function GetAttrGet(j: Json, k: string, default: Json): Outcome<Json> {
    match j
    case JObj(d) => Returned(Get(d, k).GetOr(default))
    case _ => Raised(NoAttribute(j, "get"))
  }

  /** `j.get(key, default)` with an arbitrary key: only dicts have `get`. */
  function GetMethod(j: Json, key: Json, default: Json): Outcome<Json> {
    match j
    case JObj(d) => DictGet(d, key, default)
    case _ => Raised(NoAttribute(j, "get"))
  }

  /** An item of a tool list: an object with attributes, or a plain value. */
  datatype ListedTool = ToolObject(attributes: Dict) | ToolValue(value: Json)

  /** `d.get(key, default)` on a dict with an arbitrary key. */
  function DictGet(d: Dict, key: Json, default: Json): Outcome<Json> {
    var k :- AsDictKey(key);
    Returned(if k.Some? && HasKey(d, k.value) then Get(d, k.value).value else default)
  }
}
