/** The schema model of flexschema/schema/schema.py: a closed set of node
    kinds sharing the `SchemaBase` fields, plus the values the parser stores
    in those fields. */
module Schema {
  import opened Results
  import opened Json

  /** `ESchemaType` */
  datatype Kind =
    | ObjectKind | ArrayKind | StringKind | IntegerKind
    | FloatKind | BooleanKind | NullKind | UnknownKind

  /** The string value of each `ESchemaType` member. */
  function KindName(k: Kind): string {
    match k
    case ArrayKind => "array"
    case BooleanKind => "boolean"
    case NullKind => "null"
    case IntegerKind => "integer"
    case FloatKind => "number"
    case ObjectKind => "object"
    case StringKind => "string"
    case UnknownKind => "UNKNOWN"
  }

  /** `_mapping.get(name)`: the kind whose `ESchemaType` value is `name`. */
  function KindFromName(name: string): (r: Option<Kind>)
    ensures r.Some? ==> KindName(r.value) == name
    ensures r.None? ==> forall k :: KindName(k) != name
  {
    if name == "array" then Some(ArrayKind)
    else if name == "boolean" then Some(BooleanKind)
    else if name == "null" then Some(NullKind)
    else if name == "integer" then Some(IntegerKind)
    else if name == "number" then Some(FloatKind)
    else if name == "object" then Some(ObjectKind)
    else if name == "string" then Some(StringKind)
    else if name == "UNKNOWN" then Some(UnknownKind)
    else None
  }

  /** Every kind is found again from its own name: `_mapping` covers all of
      `ESchemaType` and no two members share a value. */
  lemma KindNameRoundTrip(k: Kind)
    ensures KindFromName(KindName(k)) == Some(k)
  {
  }

  /** The Python class that `_mapping` selects for each kind. */
  function ClassName(k: Kind): string {
    match k
    case ObjectKind => "SchemaObject"
    case ArrayKind => "SchemaArray"
    case StringKind => "SchemaString"
    case IntegerKind => "SchemaInteger"
    case FloatKind => "SchemaFloat"
    case BooleanKind => "SchemaBoolean"
    case NullKind => "SchemaNull"
    case UnknownKind => "SchemaUnknown"
  }

  /** The dataclass fields of `SchemaBase`. */
  const BaseFields: set<string> :=
    {"type", "description", "title", "name", "enum", "anyOf", "id", "schema",
     "required", "default", "unique", "ref", "meta"}

  /** The keyword arguments each variant's constructor accepts. */
  function FieldsOf(k: Kind): set<string> {
    match k
    case ObjectKind => BaseFields + {"properties"}
    case ArrayKind => BaseFields + {"items"}
    case StringKind => BaseFields + {"pattern"}
    case IntegerKind => BaseFields + {"minimum", "maximum"}
    case FloatKind => BaseFields + {"minimum", "maximum"}
    case UnknownKind => BaseFields + {"typename"}
    case _ => BaseFields
  }

  /** `ref`: absent, an unresolved name, the context's node itself, or some
      other value the document put there (which no backend renders). */
  datatype Ref =
    | NoRef
    | RefName(refName: string)
    | RefNode(target: Node)
    | RefOther(other: Value)

  /** The `SchemaBase` fields. Fields that no backend reads keep the parsed
      value as it came. */
  datatype Base = Base(
    description: Value,
    title: Option<string>,
    name: Option<string>,
    enumValues: seq<Raw>,
    anyOf: Value,
    id: Value,
    schemaUri: Value,
    required: Raw,
    default: Raw,
    unique: Raw,
    ref: Ref,
    meta: Raw)

  datatype Node =
    | ObjectNode(base: Base, properties: seq<Property>)
    | ArrayNode(base: Base, items: Option<AnySchema>)
    | StringNode(base: Base, pattern: Value)
    | IntegerNode(base: Base, minimum: Value, maximum: Value)
    | FloatNode(base: Base, minimum: Value, maximum: Value)
    | BooleanNode(base: Base)
    | NullNode(base: Base)
    | UnknownNode(base: Base, typename: Raw)
  {
    function Kind(): Kind {
      match this
      case ObjectNode(_, _) => ObjectKind
      case ArrayNode(_, _) => ArrayKind
      case StringNode(_, _) => StringKind
      case IntegerNode(_, _, _) => IntegerKind
      case FloatNode(_, _, _) => FloatKind
      case BooleanNode(_) => BooleanKind
      case NullNode(_) => NullKind
      case UnknownNode(_, _) => UnknownKind
    }

    /** `key`: `title or name`. */
    function Key(): Option<string> {
      if base.title.Some? && base.title.value != "" then base.title else base.name
    }

    /** The node with its `name` field replaced. */
    function WithName(n: string): Node {
      this.(base := base.(name := Some(n)))
    }

    /** The node with its `required` field replaced. */
    function WithRequired(r: Raw): Node {
      this.(base := base.(required := r))
    }
  }

  /** `flags`: the `required`, `default` and `unique` fields, in field
      order, leaving out those that hold `None`. */
  function Flags(n: Node): (r: seq<Flag>)
    ensures forall i :: 0 <= i < |r| ==> r[i].value != JNull
    ensures Flag("required", n.base.required) in r <==> n.base.required != JNull
    ensures Flag("default", n.base.default) in r <==> n.base.default != JNull
    ensures Flag("unique", n.base.unique) in r <==> n.base.unique != JNull
    ensures forall i :: 0 <= i < |r| ==>
      r[i] == Flag("required", n.base.required) || r[i] == Flag("default", n.base.default) || r[i] == Flag("unique", n.base.unique)
    ensures forall i :: 0 <= i < |r| ==> FlagRank(r[i].name) < 3
    ensures forall i, j :: 0 <= i < j < |r| ==> FlagRank(r[i].name) < FlagRank(r[j].name)
  {
    (if n.base.required != JNull then [Flag("required", n.base.required)] else [])
    + (if n.base.default != JNull then [Flag("default", n.base.default)] else [])
    + (if n.base.unique != JNull then [Flag("unique", n.base.unique)] else [])
  }

  /** Naming a node sets the fallback of `key`: a non-empty title still
      wins, otherwise the key is the new name. Nothing else changes. */
  lemma KeyAfterNaming(n: Node, k: string)
    ensures n.base.title.Some? && n.base.title.value != "" ==> n.WithName(k).Key() == n.Key() == n.base.title
    ensures !(n.base.title.Some? && n.base.title.value != "") ==> n.WithName(k).Key() == Some(k)
    ensures n.WithName(k).Kind() == n.Kind() && Flags(n.WithName(k)) == Flags(n)
  {
  }

  datatype Property = Property(key: string, node: Node)

  /** `AnySchema`: a node, or a list or mapping of them. */
  datatype AnySchema =
    | SNode(node: Node)
    | SList(elems: seq<AnySchema>)
    | SDict(entries: seq<SEntry>)

  datatype SEntry = SEntry(key: string, value: AnySchema)

  /** What the parser stores under a key: the raw value itself, a parsed
      node, a list of such values, or the property mapping of an object. */
  datatype Value =
    | Plain(raw: Raw)
    | Parsed(node: Node)
    | ListOf(elems: seq<Value>)
    | PropsOf(props: seq<Property>)

  datatype Flag = Flag(name: string, value: Raw)

  /** Position of a flag name in the dataclass field order. */
  function FlagRank(name: string): nat {
    if name == "required" then 0
    else if name == "default" then 1
    else if name == "unique" then 2
    else 3
  }

  /** `key or fallback` */
  function KeyOr(key: Option<string>, fallback: string): string {
    if key.Some? && key.value != "" then key.value else fallback
  }

  /** `str(key)`: `None` when there is no key. */
  function KeyText(key: Option<string>): string {
    if key.Some? then key.value else "None"
  }

  /** Python truthiness of an `AnySchema` value. */
  predicate SchemaTruthy(s: AnySchema) {
    match s
    case SNode(_) => true
    case SList(es) => |es| > 0
    case SDict(es) => |es| > 0
  }
}
