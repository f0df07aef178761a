/** `parse` of flexschema/schema/schema.py: recursive descent over a decoded
    JSON object that builds a schema node, resolving `$ref` against a context
    the caller supplies and marking required properties. */
module Parser {
  import opened Results
  import opened Text
  import opened Json
  import opened Schema

  /** One step of the breadcrumb path: a key or a list index. */
  datatype Crumb = KeyCrumb(key: string) | IndexCrumb(index: nat)

  function CrumbText(c: Crumb): string {
    match c
    case KeyCrumb(k) => k
    case IndexCrumb(i) => IntToString(i)
  }

  /** `'.'.join(map(str, crumbs))` */
  function PathText(crumbs: seq<Crumb>): string {
    Join(".", seq(|crumbs|, i requires 0 <= i < |crumbs| => CrumbText(crumbs[i])))
  }

  /** The ways `parse` raises. `FieldTypeMismatch` is the model's own: it
      rejects a value that does not fit the dataclass annotation of a field a
      backend reads, which Python would store unchecked. */
  datatype ParseError =
    | MissingType(path: string)
    | UnhashableKey(path: string)
    | NotAMapping(path: string)
    | UnexpectedField(className: string, field: string)
    | FieldTypeMismatch(className: string, field: string)
  {
    function Message(): string {
      match this
      case MissingType(p) => p + ": Missing `type`"
      case UnhashableKey(p) => p + ": unhashable type"
      case NotAMapping(p) => p + ": object has no attribute 'items'"
      case UnexpectedField(c, f) => c + ".__init__() got an unexpected keyword argument '" + f + "'"
      case FieldTypeMismatch(c, f) => c + "." + f + ": value does not fit the field"
    }
  }

  /** The reference context: names of already parsed nodes. It is only read. */
  type Context = map<string, Node>

  /** The field values gathered for one node (`copy`), by translated key. */
  type Copy = map<string, Value>

  /** `translate_key`: a leading `$` is dropped, once. */
  function TranslateKey(k: string): (r: string)
    ensures |k| > 0 && k[0] == '$' ==> "$" + r == k
    ensures !(|k| > 0 && k[0] == '$') ==> r == k
  {
    if |k| > 0 && k[0] == '$' then k[1..] else k
  }

  /** `parse(data, context)`; a missing context is the empty one. */
  function Parse(data: Raw, ctx: Context): Result<Node, ParseError> {
    match data
    case JObject(ms) => ParseNode(ms, [], None, ctx)
    case _ => Err(NotAMapping(""))
  }

  /** `_parse(data, crumbs, crumb)`: gather every member into `copy`, pick the
      variant from `type`, then construct it. */
  function ParseNode(data: seq<Member>, crumbs: seq<Crumb>, crumb: Option<Crumb>, ctx: Context): Result<Node, ParseError>
    decreases MembersSize(data), 3
  {
    var copy :- CopyFields(data, data, crumbs, ctx, map[]);
    var variant :- SelectVariant(Get(data, "type"), crumbs, crumb);
    Build(data, variant.0, variant.1, copy)
  }

  /** The loop over `data.items()`, on the members still to visit. A later
      member with the same translated key replaces an earlier one. */
  function CopyFields(data: seq<Member>, rest: seq<Member>, crumbs: seq<Crumb>, ctx: Context, copy: Copy): Result<Copy, ParseError>
    decreases MembersSize(rest), 2
  {
    if rest == [] then Ok(copy)
    else
      var entry :- ConvertMember(data, rest[0], crumbs, ctx);
      CopyFields(data, rest[1..], crumbs, ctx, copy[entry.0 := entry.1])
  }

  /** One iteration of that loop: the key `copy` receives and its value. */
  function ConvertMember(data: seq<Member>, m: Member, crumbs: seq<Crumb>, ctx: Context): (r: Result<(string, Value), ParseError>)
    ensures r.Ok? ==> r.value.0 == TranslateKey(m.key)
    decreases Size(m.value), 1
  {
    var k := m.key;
    var v := m.value;
    if k == "meta" then Ok(("meta", Plain(v)))
    // `context.get(v)` cannot hash a list or a mapping
    else if k == "$ref" && (v.JList? || v.JObject?) then Err(UnhashableKey(PathText(crumbs)))
    else if k == "$ref" && v.JStr? && v.s in ctx then Ok((TranslateKey(k), Parsed(ctx[v.s])))
    else
      match v
      case JObject(ms) =>
        if k == "properties" then
          var requiredKeys := Get(data, "required").GetOr(JList([]));
          var props :- ConvertProps(requiredKeys, ms, crumbs, ctx);
          Ok(("properties", PropsOf(props)))
        else
          // `items` and every other key: the mapping is a nested node
          var node :- ParseNode(ms, crumbs + [KeyCrumb(k)], Some(KeyCrumb(k)), ctx);
          Ok((TranslateKey(k), Parsed(node)))
      case JList(items) =>
        var values :- ConvertList(items, 0, crumbs + [KeyCrumb(k)], ctx);
        Ok((TranslateKey(k), ListOf(values)))
      case _ => Ok((TranslateKey(k), Plain(v)))
  }

  /** The `properties` loop: each property value is parsed, named after its
      key and marked required when the parent's `required` list holds its key. */
  function ConvertProps(requiredKeys: Raw, pes: seq<Member>, crumbs: seq<Crumb>, ctx: Context): Result<seq<Property>, ParseError>
    decreases MembersSize(pes), 2
  {
    if pes == [] then Ok([])
    else
      var child :- ParsePropertyChild(requiredKeys, pes[0], crumbs, ctx);
      var rest :- ConvertProps(requiredKeys, pes[1..], crumbs, ctx);
      Ok([Property(pes[0].key, child)] + rest)
  }

  function ParsePropertyChild(requiredKeys: Raw, m: Member, crumbs: seq<Crumb>, ctx: Context): Result<Node, ParseError>
    decreases Size(m.value), 1
  {
    var path := crumbs + [KeyCrumb("properties"), KeyCrumb(m.key)];
    match m.value
    case JObject(ms) =>
      var field :- ParseNode(ms, path, Some(KeyCrumb(m.key)), ctx);
      var named := field.WithName(m.key);
      Ok(if RequiredBy(named.Key(), requiredKeys) then named.WithRequired(JBool(true)) else named)
    case _ => Err(NotAMapping(PathText(path)))
  }

  /** `isinstance(required_keys, list) and field.key and field.key in required_keys` */
  predicate RequiredBy(key: Option<string>, requiredKeys: Raw) {
    requiredKeys.JList? && key.Some? && key.value != "" && JStr(key.value) in requiredKeys.items
  }

  /** A list value: mapping elements are parsed, the others kept as they are. */
  function ConvertList(items: seq<Raw>, start: nat, path: seq<Crumb>, ctx: Context): Result<seq<Value>, ParseError>
    decreases ListSize(items), 2
  {
    if items == [] then Ok([])
    else
      var head :- ConvertElement(items[0], start, path, ctx);
      var tail :- ConvertList(items[1..], start + 1, path, ctx);
      Ok([head] + tail)
  }

  function ConvertElement(item: Raw, index: nat, path: seq<Crumb>, ctx: Context): Result<Value, ParseError>
    decreases Size(item), 1
  {
    match item
    case JObject(ms) =>
      var node :- ParseNode(ms, path + [IndexCrumb(index)], Some(IndexCrumb(index)), ctx);
      Ok(Parsed(node))
    case _ => Ok(Plain(item))
  }

  /** The `type` check and the `_mapping` lookup: the kind to build and, for
      the unknown kind, the `typename` it keeps. */
  function SelectVariant(typeField: Option<Raw>, crumbs: seq<Crumb>, crumb: Option<Crumb>): (r: Result<(Kind, Raw), ParseError>)
    ensures typeField.None? ==> r == Ok((UnknownKind, JStr("UNKNOWN")))
    ensures r.Err? <==>
      typeField.Some? &&
      (if crumb == Some(KeyCrumb("properties"))
       then typeField.value.JList? || typeField.value.JObject?
       else !typeField.value.JStr? || typeField.value.s == "")
    ensures r.Err? && crumb != Some(KeyCrumb("properties")) ==> r.error == MissingType(PathText(crumbs))
    ensures forall s, k :: typeField == Some(JStr(s)) && KindName(k) == s ==> r == Ok((k, JStr(s)))
    ensures forall s :: typeField == Some(JStr(s)) && s != "" && KindFromName(s).None? ==> r == Ok((UnknownKind, JStr(s)))
    ensures r.Ok? && r.value.0 != UnknownKind ==> typeField == Some(JStr(KindName(r.value.0)))
  {
    var typename := typeField.GetOr(JStr(KindName(UnknownKind)));
    if crumb != Some(KeyCrumb("properties")) && (!Truthy(typename) || !typename.JStr?) then
      Err(MissingType(PathText(crumbs)))
    else if typename.JList? || typename.JObject? then
      Err(UnhashableKey(PathText(crumbs)))
    else if typename.JStr? && KindFromName(typename.s).Some? then
      Ok((KindFromName(typename.s).value, typename))
    else
      Ok((UnknownKind, typename))
  }

  /** The first key (translated) that the variant's constructor does not take. */
  function FirstUndeclared(data: seq<Member>, kind: Kind): (r: Option<string>)
    ensures r.None? <==> forall i :: 0 <= i < |data| ==> TranslateKey(data[i].key) in FieldsOf(kind)
    ensures r.Some? ==> r.value !in FieldsOf(kind) && exists i :: 0 <= i < |data| && TranslateKey(data[i].key) == r.value
  {
    if data == [] then None
    else if TranslateKey(data[0].key) !in FieldsOf(kind) then Some(TranslateKey(data[0].key))
    else FirstUndeclared(data[1..], kind)
  }

  /** `clazz(**copy)` */
  function Build(data: seq<Member>, kind: Kind, typename: Raw, copy: Copy): (r: Result<Node, ParseError>)
    ensures r.Ok? ==> r.value.Kind() == kind
    ensures r.Ok? <==> FirstUndeclared(data, kind).None? && BuildBase(kind, copy).Ok? && VariantFieldsFit(kind, copy)
    ensures r.Ok? ==> r.value.base == BuildBase(kind, copy).value
    ensures r.Ok? && kind == UnknownKind ==> r.value.typename == typename
    ensures r.Ok? && kind == ArrayKind ==> r.value.items == ItemsField(copy).value
    ensures r.Ok? && kind == ObjectKind ==> r.value.properties == PropertiesField(copy).value
  {
    var cls := ClassName(kind);
    var undeclared := FirstUndeclared(data, kind);
    if undeclared.Some? then Err(UnexpectedField(cls, undeclared.value))
    else
      var base :- BuildBase(kind, copy);
      match kind
      case ObjectKind =>
        var props :- PropertiesField(copy);
        Ok(ObjectNode(base, props))
      case ArrayKind =>
        var items :- ItemsField(copy);
        Ok(ArrayNode(base, items))
      case StringKind => Ok(StringNode(base, Lookup(copy, "pattern", Plain(JNull))))
      case IntegerKind => Ok(IntegerNode(base, Lookup(copy, "minimum", Plain(JNull)), Lookup(copy, "maximum", Plain(JNull))))
      case FloatKind => Ok(FloatNode(base, Lookup(copy, "minimum", Plain(JNull)), Lookup(copy, "maximum", Plain(JNull))))
      case BooleanKind => Ok(BooleanNode(base))
      case NullKind => Ok(NullNode(base))
      case UnknownKind => Ok(UnknownNode(base, typename))
  }

  predicate VariantFieldsFit(kind: Kind, copy: Copy) {
    (kind == ObjectKind ==> PropertiesField(copy).Ok?) && (kind == ArrayKind ==> ItemsField(copy).Ok?)
  }

  /** The shared fields, each taken from `copy` or given its dataclass default. */
  function BuildBase(kind: Kind, copy: Copy): Result<Base, ParseError> {
    var cls := ClassName(kind);
    var title :- OptStringField(copy, "title", cls);
    var name :- OptStringField(copy, "name", cls);
    var enumValues :- EnumField(copy, cls);
    var required :- LiteralField(copy, "required", if kind == ObjectKind then JList([]) else JBool(false), cls);
    var default :- LiteralField(copy, "default", JNull, cls);
    var unique :- LiteralField(copy, "unique", JBool(false), cls);
    var meta :- LiteralField(copy, "meta", JObject([]), cls);
    Ok(Base(
      Lookup(copy, "description", Plain(JNull)), title, name, enumValues,
      Lookup(copy, "anyOf", ListOf([])), Lookup(copy, "id", Plain(JNull)),
      Lookup(copy, "schema", Plain(JNull)), required, default, unique,
      ToRef(Lookup(copy, "ref", Plain(JNull))), meta))
  }

  function Lookup(copy: Copy, key: string, fallback: Value): Value {
    if key in copy then copy[key] else fallback
  }

  /** A `str | None` field. */
  function OptStringField(copy: Copy, key: string, cls: string): Result<Option<string>, ParseError> {
    match Lookup(copy, key, Plain(JNull))
    case Plain(JNull) => Ok(None)
    case Plain(JStr(s)) => Ok(Some(s))
    case _ => Err(FieldTypeMismatch(cls, key))
  }

  /** `enum`: a list of plain values. */
  function EnumField(copy: Copy, cls: string): Result<seq<Raw>, ParseError> {
    match Lookup(copy, "enum", ListOf([]))
    case ListOf(vs) =>
      var rs := ToLiterals(vs);
      if rs.Some? then Ok(rs.value) else Err(FieldTypeMismatch(cls, "enum"))
    case _ => Err(FieldTypeMismatch(cls, "enum"))
  }

  /** A field holding a plain value (`required`, `default`, `unique`, `meta`). */
  function LiteralField(copy: Copy, key: string, fallback: Raw, cls: string): Result<Raw, ParseError> {
    var r := ToLiteral(Lookup(copy, key, Plain(fallback)));
    if r.Some? then Ok(r.value) else Err(FieldTypeMismatch(cls, key))
  }

  function PropertiesField(copy: Copy): Result<seq<Property>, ParseError> {
    match Lookup(copy, "properties", PropsOf([]))
    case PropsOf(ps) => Ok(ps)
    case _ => Err(FieldTypeMismatch(ClassName(ObjectKind), "properties"))
  }

  function ItemsField(copy: Copy): Result<Option<AnySchema>, ParseError> {
    var v := Lookup(copy, "items", Plain(JNull));
    if v == Plain(JNull) then Ok(None)
    else
      var s := ToSchema(v);
      if s.Some? then Ok(Some(s.value)) else Err(FieldTypeMismatch(ClassName(ArrayKind), "items"))
  }

  /** The value as plain data, when it holds no parsed node. */
  function ToLiteral(v: Value): Option<Raw> {
    match v
    case Plain(r) => Some(r)
    case ListOf(vs) =>
      var rs := ToLiterals(vs);
      if rs.Some? then Some(JList(rs.value)) else None
    case _ => None
  }

  function ToLiterals(vs: seq<Value>): Option<seq<Raw>> {
    if vs == [] then Some([])
    else
      var h := ToLiteral(vs[0]);
      var t := ToLiterals(vs[1..]);
      if h.Some? && t.Some? then Some([h.value] + t.value) else None
  }

  /** The value read as `ref`. */
  function ToRef(v: Value): Ref {
    match v
    case Plain(JNull) => NoRef
    case Plain(JStr(s)) => RefName(s)
    case Parsed(n) => RefNode(n)
    case _ => RefOther(v)
  }

  /** The value read as an `AnySchema` (nodes, lists and mappings of them). */
  function ToSchema(v: Value): Option<AnySchema> {
    match v
    case Parsed(n) => Some(SNode(n))
    case ListOf(vs) =>
      var ss := ToSchemas(vs);
      if ss.Some? then Some(SList(ss.value)) else None
    case Plain(r) => RawToSchema(r)
    case PropsOf(_) => None
  }

  function ToSchemas(vs: seq<Value>): Option<seq<AnySchema>> {
    if vs == [] then Some([])
    else
      var h := ToSchema(vs[0]);
      var t := ToSchemas(vs[1..]);
      if h.Some? && t.Some? then Some([h.value] + t.value) else None
  }

  function RawToSchema(r: Raw): Option<AnySchema> {
    match r
    case JList(items) =>
      var ss := RawsToSchemas(items);
      if ss.Some? then Some(SList(ss.value)) else None
    case JObject(ms) =>
      var es := MembersToEntries(ms);
      if es.Some? then Some(SDict(es.value)) else None
    case _ => None
  }

  function RawsToSchemas(rs: seq<Raw>): Option<seq<AnySchema>> {
    if rs == [] then Some([])
    else
      var h := RawToSchema(rs[0]);
      var t := RawsToSchemas(rs[1..]);
      if h.Some? && t.Some? then Some([h.value] + t.value) else None
  }

  function MembersToEntries(ms: seq<Member>): Option<seq<SEntry>> {
    if ms == [] then Some([])
    else
      var h := RawToSchema(ms[0].value);
      var t := MembersToEntries(ms[1..]);
      if h.Some? && t.Some? then Some([SEntry(ms[0].key, h.value)] + t.value) else None
  }
}
