/** The TypeScript backend: a depth-first printer that turns a parsed schema
    into type declarations, hoisting each string enum into an `export enum`
    declaration collected on the side. */
module TypeScript {
  import opened Results
  import opened Text
  import opened Json
  import opened Schema
  import opened Translation

  /** What `trans` returns, together with the enum declarations collected so
      far (the accumulator `make_enum` appends to). */
  datatype Out = Out(text: string, enums: seq<string>)

  /** The name `make_enum` gives an enum: `E` followed by the title-cased key. */
  function EnumName(name: string): string {
    "E" + Title(name)
  }

  /** One enum member: the value as Python's `str` shows it, assigned its own text. */
  function EnumMember(x: Raw): string {
    MakePad(2) + PyStr(x) + " = \"" + PyStr(x) + "\""
  }

  function EnumMembers(keys: seq<Raw>): (r: seq<string>)
    ensures |r| == |keys|
    ensures forall i :: 0 <= i < |keys| ==> r[i] == EnumMember(keys[i])
  {
    if keys == [] then [] else [EnumMember(keys[0])] + EnumMembers(keys[1..])
  }

  /** The declaration `make_enum` hoists. */
  function EnumDecl(name: string, keys: seq<Raw>): string {
    "export enum " + EnumName(name) + " {\n" + Join(",\n", EnumMembers(keys)) + "\n};"
  }

  /** The `?` that marks a property whose `required` is not truthy. */
  function OptionalMark(n: Node): string {
    if Truthy(n.base.required) then "" else "?"
  }

  /** One property line: key, mark and the child's type, indented two more
      blanks than the object's closing brace. */
  function PropertyLine(p: Property, depth: nat, child: string): string {
    PadLeft(p.key + OptionalMark(p.node) + ": " + child + ";\n", depth * 2 + 2)
  }

  /** The type name of a root object: its key, or `SomeObject`, without blanks. */
  function ObjectName(n: Node): string {
    RemoveSpaces(KeyOr(n.Key(), "SomeObject"))
  }

  function ObjectOpen(n: Node, depth: nat): string {
    (if depth == 0 then "export type " + ObjectName(n) + " = " else "") + "{\n"
  }

  function ObjectClose(depth: nat): string {
    PadLeft("}" + (if depth == 0 then ";" else ""), depth * 2)
  }

  /** `trans(schema, depth)` with the enum list threaded through. */
  function TransSchema(s: AnySchema, depth: nat, enums: seq<string>): (r: Out)
    ensures enums <= r.enums
    decreases s
  {
    match s
    case SNode(n) => TransNode(n, depth, enums)
    case SList(es) => TransList(es, depth + 1, enums)
    case SDict(es) => TransEntries(es, depth + 1, enums)
  }

  /** The elements of a list, each at `depth`, one after the other. */
  function TransList(es: seq<AnySchema>, depth: nat, enums: seq<string>): (r: Out)
    ensures enums <= r.enums
    decreases es
  {
    if es == [] then Out("", enums)
    else
      var head := TransSchema(es[0], depth, enums);
      var tail := TransList(es[1..], depth, head.enums);
      Out(head.text + tail.text, tail.enums)
  }

  /** The values of a mapping, each at `depth`, keys unused. */
  function TransEntries(es: seq<SEntry>, depth: nat, enums: seq<string>): (r: Out)
    ensures enums <= r.enums
    decreases es
  {
    if es == [] then Out("", enums)
    else
      var head := TransSchema(es[0].value, depth, enums);
      var tail := TransEntries(es[1..], depth, head.enums);
      Out(head.text + tail.text, tail.enums)
  }

  /** The property lines of an object at `depth`, in property order. */
  function TransProps(ps: seq<Property>, depth: nat, enums: seq<string>): (r: Out)
    ensures enums <= r.enums
    decreases ps
  {
    if ps == [] then Out("", enums)
    else
      var child := TransNode(ps[0].node, depth + 1, enums);
      var tail := TransProps(ps[1..], depth, child.enums);
      Out(PropertyLine(ps[0], depth, child.text) + tail.text, tail.enums)
  }

  /** A node, dispatched on its variant; `ref` is never consulted. */
  function TransNode(n: Node, depth: nat, enums: seq<string>): (r: Out)
    ensures enums <= r.enums
    decreases n
  {
    match n
    case ObjectNode(_, ps) =>
      var body := TransProps(ps, depth, enums);
      Out(ObjectOpen(n, depth) + body.text + ObjectClose(depth), body.enums)
    case IntegerNode(_, _, _) => Out("number", enums)
    case FloatNode(_, _, _) => Out("number", enums)
    case StringNode(b, _) =>
      if |b.enumValues| > 0 then
        var name := KeyOr(n.Key(), "_unknown_");
        Out(EnumName(name), enums + [EnumDecl(name, b.enumValues)])
      else Out("string", enums)
    case ArrayNode(_, items) =>
      if items.Some? && SchemaTruthy(items.value) then
        // the items are translated at the default depth 0
        var inner := TransSchema(items.value, 0, enums);
        Out("Array<" + inner.text + ">", inner.enums)
      else Out("Array<any>", enums)
    case UnknownNode(_, _) => Out("unknown", enums)
    case BooleanNode(_) => Out("", enums)
    case NullNode(_) => Out("", enums)
  }

  /** `translate(schema)`: the root at depth 0, then the hoisted enums. */
  function Translate(s: AnySchema): (t: Translation)
    ensures t.extension == ".ts" && t.deps == {} && t.head == []
    ensures TransSchema(s, 0, []).text <= t.output
  {
    var body := TransSchema(s, 0, []);
    var output := if |body.enums| > 0 then body.text + "\n" + Join("\n", body.enums) else body.text;
    NewTranslation(output, ".ts")
  }
}
