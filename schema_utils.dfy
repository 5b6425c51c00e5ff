/** Tool schemas: pulling the schema out of a tool object, cleaning it,
    checking its shape, and reading its required names and optional
    defaults. */
module SchemaUtils {
  import opened Options
  import opened Values

  // ----------------------------------------------------------------- clean

  /** Names that describe the tool itself and are never required parameters. */
  predicate IsInternalName(j: Json) {
    j == JStr("name") || j == JStr("inputSchema") || j == JStr("description")
    || j == JStr("schema") || j == JStr("annotations")
  }

  /** The `required` list with the internal names removed, order kept. */
  function WithoutInternalNames(items: seq<Json>): (r: seq<Json>)
    ensures |r| <= |items|
    ensures forall x :: x in r <==> x in items && !IsInternalName(x)
  {
    if items == [] then []
    else if IsInternalName(items[0]) then WithoutInternalNames(items[1..])
    else [items[0]] + WithoutInternalNames(items[1..])
  }

  /** Filtering a concatenation filters each part: the names that remain
      keep their relative order. */
  lemma {:induction false} WithoutInternalNamesConcat(a: seq<Json>, b: seq<Json>)
    ensures WithoutInternalNames(a + b) == WithoutInternalNames(a) + WithoutInternalNames(b)
  {
    if a == [] {
      assert a + b == b;
    } else {
      assert (a + b)[0] == a[0];
      assert (a + b)[1..] == a[1..] + b;
      WithoutInternalNamesConcat(a[1..], b);
    }
  }

  /** A list with no internal names is left as it is. */
  lemma {:induction false} WithoutInternalNamesKeeps(items: seq<Json>)
    requires forall x :: x in items ==> !IsInternalName(x)
    ensures WithoutInternalNames(items) == items
  {
    if items != [] {
      assert items[0] in items;
      assert forall x :: x in items[1..] ==> x in items;
      WithoutInternalNamesKeeps(items[1..]);
    }
  }

  /** `_clean_schema`. A value that is not a dict (including `None`) becomes
      `{}`. In a copy of a dict, a list `required` loses the internal names
      and any other `required` becomes `[]`; a missing or non-dict
      `properties` becomes `{}`; every other entry is kept. */
  function CleanSchema(schema: Json): (r: Json)
    ensures r.JObj?
    ensures !schema.JObj? ==> r == JObj([])
    ensures schema.JObj? ==> ValidateSchemaStructure(r)
    ensures schema.JObj? ==> (HasKey(r.entries, "required") <==> HasKey(schema.entries, "required"))
    ensures forall items :: Field(schema, "required") == Some(JArr(items)) ==> Field(r, "required") == Some(JArr(WithoutInternalNames(items)))
    ensures schema.JObj? && HasKey(schema.entries, "required") && !Field(schema, "required").value.JArr? ==> Field(r, "required") == Some(JArr([]))
    ensures schema.JObj? ==> Field(r, "properties") == if Field(schema, "properties").Some? && Field(schema, "properties").value.JObj? then Field(schema, "properties") else Some(JObj([]))
    ensures schema.JObj? ==> forall k :: k != "required" && k != "properties" ==> Get(r.entries, k) == Get(schema.entries, k)
  {
    if !schema.JObj? then JObj([])
    else
      var d := schema.entries;
      var withRequired :=
        if !HasKey(d, "required") then d
        else match Get(d, "required").value
          case JArr(items) => Put(d, "required", JArr(WithoutInternalNames(items)))
          case _ => Put(d, "required", JArr([]));
      var props := Get(withRequired, "properties");
      var cleaned :=
        if props.None? || !props.value.JObj? then Put(withRequired, "properties", JObj([]))
        else withRequired;
      JObj(cleaned)
  }

  /** Cleaning a cleaned schema changes nothing. */
  lemma CleanSchemaIdempotent(schema: Json)
    requires schema.JObj?
    ensures CleanSchema(CleanSchema(schema)) == CleanSchema(schema)
  {
    var c := CleanSchema(schema);
    var d := c.entries;
    if HasKey(d, "required") {
      var items := Get(d, "required").value.items;
      WithoutInternalNamesKeeps(items);
      PutSame(d, "required", JArr(items));
    }
  }

  /** A schema that already has the cleaned shape, and no internal name in
      its `required` list, is its own cleaning. */
  lemma CleanSchemaKeepsClean(schema: Json)
    requires ValidateSchemaStructure(schema)
    requires forall items :: Field(schema, "required") == Some(JArr(items)) ==> forall x :: x in items ==> !IsInternalName(x)
    ensures CleanSchema(schema) == schema
  {
    var d := schema.entries;
    if HasKey(d, "required") {
      var items := Get(d, "required").value.items;
      WithoutInternalNamesKeeps(items);
      PutSame(d, "required", JArr(items));
    }
  }

  // -------------------------------------------------------------- validate

  /** `validate_schema_structure`: a dict with a dict `properties` and, when
      present, a list `required`. */
  predicate ValidateSchemaStructure(schema: Json) {
    schema.JObj?
    && HasKey(schema.entries, "properties")
    && Get(schema.entries, "properties").value.JObj?
    && (HasKey(schema.entries, "required") ==> Get(schema.entries, "required").value.JArr?)
  }

  /** The structure check reads only the `properties` and `required`
      entries: two dict schemas that agree on those two keys are valid
      together or invalid together, whatever else they hold and in
      whatever order. */
  lemma ValidityReadsTwoKeys(d: Dict, e: Dict)
    requires Get(d, "properties") == Get(e, "properties")
    requires Get(d, "required") == Get(e, "required")
    ensures ValidateSchemaStructure(JObj(d)) <==> ValidateSchemaStructure(JObj(e))
  {
  }

  /** The `properties` dict of a valid schema. */
  function Properties(schema: Json): Dict
    requires ValidateSchemaStructure(schema)
  {
    Get(schema.entries, "properties").value.entries
  }

  /** `extract_required_params`: `required` of a valid schema, `[]` when it
      is absent or the schema is not valid. */
  function ExtractRequiredParams(schema: Json): (r: seq<Json>)
    ensures !ValidateSchemaStructure(schema) ==> r == []
    ensures ValidateSchemaStructure(schema) ==> r == if HasKey(schema.entries, "required") then Get(schema.entries, "required").value.items else []
  {
    if !ValidateSchemaStructure(schema) then []
    else Get(schema.entries, "required").GetOr(JArr([])).items
  }

  /** After cleaning, no internal name is required, and every remaining
      required entry was required before. */
  lemma RequiredAfterCleaning(schema: Json)
    requires schema.JObj?
    ensures forall x :: x in ExtractRequiredParams(CleanSchema(schema)) ==> !IsInternalName(x)
    ensures forall x :: x in ExtractRequiredParams(CleanSchema(schema)) ==> x in ExtractRequiredParams(schema) || !ValidateSchemaStructure(schema)
  {
    var c := CleanSchema(schema);
    if HasKey(schema.entries, "required") && Field(schema, "required").value.JArr? {
      var items := Field(schema, "required").value.items;
      assert ExtractRequiredParams(c) == WithoutInternalNames(items);
    }
  }

  // -------------------------------------------------------------- defaults

  /** Whether `name` is listed in `required` (Python's `in` on a list). */
  predicate IsRequired(name: string, required: seq<Json>) {
    JStr(name) in required
  }

  /** One step of the defaults loop. */
  function DefaultsStep(acc: Dict, entry: (string, Json), required: seq<Json>): Dict {
    var (name, info) := entry;
    if !IsRequired(name, required) && info.JObj? && HasKey(info.entries, "default") then
      Put(acc, name, Get(info.entries, "default").value)
    else acc
  }

  /** The defaults loop over `properties`, continuing from `acc`. */
  function DefaultsFrom(acc: Dict, props: Dict, required: seq<Json>): Dict
    decreases |props|
  {
    if props == [] then acc else DefaultsFrom(DefaultsStep(acc, props[0], required), props[1..], required)
  }

  /** `extract_optional_params_with_defaults`, as a value. */
  function OptionalDefaults(schema: Json): Dict {
    if !ValidateSchemaStructure(schema) then []
    else DefaultsFrom([], Properties(schema), ExtractRequiredParams(schema))
  }

  /** `extract_optional_params_with_defaults`. */
  method ExtractOptionalParamsWithDefaults(schema: Json) returns (result: Dict)
    ensures result == OptionalDefaults(schema)
  {
    if !ValidateSchemaStructure(schema) {
      return [];
    }
    result := [];
    var properties := Properties(schema);
    var required := ExtractRequiredParams(schema);
    var i := 0;
    while i < |properties|
      invariant 0 <= i <= |properties|
      invariant DefaultsFrom(result, properties[i..], required) == OptionalDefaults(schema)
    {
      var (paramName, paramInfo) := properties[i];
      assert properties[i..][1..] == properties[i + 1..];
      if !IsRequired(paramName, required) && paramInfo.JObj? && HasKey(paramInfo.entries, "default") {
        result := Put(result, paramName, Get(paramInfo.entries, "default").value);
      }
      i := i + 1;
    }
  }

  /** A name that no remaining property has keeps what `acc` gave it. */
  lemma {:induction false} DefaultsFromOther(acc: Dict, props: Dict, required: seq<Json>, k: string)
    requires !HasKey(props, k)
    ensures Get(DefaultsFrom(acc, props, required), k) == Get(acc, k)
    decreases |props|
  {
    if props != [] {
      assert Keys(props) == [props[0].0] + Keys(props[1..]);
      DefaultsFromOther(DefaultsStep(acc, props[0], required), props[1..], required, k);
    }
  }

  /** Starting from `acc`, a property name ends up holding its default
      exactly when it is optional and its info is a dict with a `default`;
      otherwise it keeps what `acc` gave it. Property names are distinct, as
      in any dict. */
  lemma {:induction false} DefaultsFromGet(acc: Dict, props: Dict, required: seq<Json>, k: string)
    requires UniqueKeys(props)
    ensures Get(DefaultsFrom(acc, props, required), k) ==
      match Get(props, k)
      case Some(info) =>
        if !IsRequired(k, required) && info.JObj? && HasKey(info.entries, "default") then Get(info.entries, "default")
        else Get(acc, k)
      case None => Get(acc, k)
    decreases |props|
  {
    if props != [] {
      var next := DefaultsStep(acc, props[0], required);
      assert UniqueKeys(props[1..]);
      if props[0].0 == k {
        assert !HasKey(props[1..], k) by {
          forall n | 0 <= n < |props[1..]| ensures Keys(props[1..])[n] != k {
            assert props[1..][n] == props[n + 1];
          }
        }
        DefaultsFromOther(next, props[1..], required, k);
      } else {
        DefaultsFromGet(next, props[1..], required, k);
      }
    }
  }

  /** The optional defaults of a schema: a name is present exactly when it
      is a property, not required, and its info is a dict carrying a
      `default`, and it then maps to that default unchanged. An invalid
      schema has none. */
  lemma OptionalDefaultsGet(schema: Json, k: string)
    requires ValidateSchemaStructure(schema) ==> UniqueKeys(Properties(schema))
    ensures Get(OptionalDefaults(schema), k) ==
      if !ValidateSchemaStructure(schema) then None
      else match Get(Properties(schema), k)
        case Some(info) =>
          if !IsRequired(k, ExtractRequiredParams(schema)) && info.JObj? && HasKey(info.entries, "default") then Get(info.entries, "default")
          else None
        case None => None
  {
    if ValidateSchemaStructure(schema) {
      DefaultsFromGet([], Properties(schema), ExtractRequiredParams(schema), k);
    }
  }

  // ------------------------------------------------------------ tool object

  /** A Python object met where a schema is expected. */
  datatype PyObject =
    | Plain(value: Json)                  // a dict, None, a list, a string, a number
    | WithAttributes(attributes: Dict)    // an object with a `__dict__`
    | WithToDict(converted: Outcome<Json>) // an object with `to_dict()` but no `__dict__`
    | Opaque                              // an object with neither

  /** A schema attribute: the object itself or a method producing it. */
  datatype SchemaAttribute =
    | Value(obj: PyObject)
    | Method(call: Outcome<PyObject>)

  /** The schema attributes a tool may have (`None` when `hasattr` is false). */
  datatype Tool = Tool(
    schema: Option<SchemaAttribute>,
    parameters: Option<SchemaAttribute>,
    parameterSchema: Option<SchemaAttribute>,
    inputSchema: Option<SchemaAttribute>)

  /** How a non-callable value, or a method's result, becomes a dict. */
  function AsSchemaDict(obj: PyObject): Json {
    match obj
    case Plain(j) => if j.JObj? then j else JObj([])
    case WithAttributes(attributes) => JObj(attributes)
    case WithToDict(Returned(j)) => j
    case WithToDict(Raised(_)) => JObj([])
    case Opaque => JObj([])
  }

  /** `_extract_schema_value`. */
  function ExtractSchemaValue(attr: SchemaAttribute): Json {
    match attr
    case Value(obj) => AsSchemaDict(obj)
    case Method(Raised(_)) => JObj([])
    case Method(Returned(obj)) => AsSchemaDict(obj)
  }

  /** The attributes in the order they are tried. */
  function Attributes(tool: Tool): seq<Option<SchemaAttribute>> {
    [tool.schema, tool.parameters, tool.parameterSchema, tool.inputSchema]
  }

  /** `get_schema_from_tool`. */
  function GetSchemaFromTool(tool: Tool): (r: Json)
    ensures r.JObj? && (r == JObj([]) || ValidateSchemaStructure(r))
  {
    if tool.schema.Some? then CleanSchema(ExtractSchemaValue(tool.schema.value))
    else if tool.parameters.Some? then CleanSchema(ExtractSchemaValue(tool.parameters.value))
    else if tool.parameterSchema.Some? then CleanSchema(ExtractSchemaValue(tool.parameterSchema.value))
    else if tool.inputSchema.Some? then CleanSchema(ExtractSchemaValue(tool.inputSchema.value))
    else JObj([])
  }

  /** The first attribute present decides the schema; a tool without any
      has the empty schema. */
  lemma FirstAttributeWins(tool: Tool, i: nat)
    requires i < 4 && Attributes(tool)[i].Some?
    requires forall j :: 0 <= j < i ==> Attributes(tool)[j].None?
    ensures GetSchemaFromTool(tool) == CleanSchema(ExtractSchemaValue(Attributes(tool)[i].value))
  {
    if i > 0 { assert Attributes(tool)[0].None?; }
    if i > 1 { assert Attributes(tool)[1].None?; }
    if i > 2 { assert Attributes(tool)[2].None?; }
  }

  lemma NoAttributeNoSchema(tool: Tool)
    requires forall j :: 0 <= j < 4 ==> Attributes(tool)[j].None?
    ensures GetSchemaFromTool(tool) == JObj([])
  {
    assert Attributes(tool)[0].None? && Attributes(tool)[1].None?;
    assert Attributes(tool)[2].None? && Attributes(tool)[3].None?;
  }

  /** Examples: a `None` attribute, a method that raises and a method that
      returns `None` all give the empty schema. */
  lemma EmptySchemaCases(e: PyError)
    ensures ExtractSchemaValue(Value(Plain(JNull))) == JObj([])
    ensures ExtractSchemaValue(Method(Raised(e))) == JObj([])
    ensures ExtractSchemaValue(Method(Returned(Plain(JNull)))) == JObj([])
    ensures CleanSchema(JObj([])) == JObj([("properties", JObj([]))])
  {
  }
}
