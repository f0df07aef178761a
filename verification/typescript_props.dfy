/** Properties of the TypeScript backend: how the enum list is threaded, and
    what each kind of node renders as. */
module TypeScriptProps {
  import opened Results
  import opened Text
  import opened Json
  import opened Schema
  import opened Translation
  import opened TypeScript

  /** The enum declarations a schema hoists, in the order the printer meets
      them: a string node with values hoists one, objects, arrays with
      truthy items, lists and mappings pass on their children's, and every
      other node hoists none. */
  function Hoisted(s: AnySchema): seq<string>
    decreases s
  {
    match s
    case SNode(n) => HoistedByNode(n)
    case SList(es) => HoistedByList(es)
    case SDict(es) => HoistedByEntries(es)
  }

  function HoistedByNode(n: Node): seq<string>
    decreases n
  {
    match n
    case ObjectNode(_, ps) => HoistedByProps(ps)
    case StringNode(b, _) =>
      if |b.enumValues| > 0 then [EnumDecl(KeyOr(n.Key(), "_unknown_"), b.enumValues)] else []
    case ArrayNode(_, items) =>
      if items.Some? && SchemaTruthy(items.value) then Hoisted(items.value) else []
    case _ => []
  }

  function HoistedByList(es: seq<AnySchema>): seq<string>
    decreases es
  {
    if es == [] then [] else Hoisted(es[0]) + HoistedByList(es[1..])
  }

  function HoistedByEntries(es: seq<SEntry>): seq<string>
    decreases es
  {
    if es == [] then [] else Hoisted(es[0].value) + HoistedByEntries(es[1..])
  }

  function HoistedByProps(ps: seq<Property>): seq<string>
    decreases ps
  {
    if ps == [] then [] else HoistedByNode(ps[0].node) + HoistedByProps(ps[1..])
  }

  /** The enum list is a pure accumulator: translating appends exactly the
      schema's hoisted declarations to it, and the text does not depend on
      what was collected before. */
  lemma {:induction false} SchemaThreads(s: AnySchema, depth: nat, acc: seq<string>)
    ensures TransSchema(s, depth, acc).enums == acc + Hoisted(s)
    ensures TransSchema(s, depth, acc).text == TransSchema(s, depth, []).text
    decreases s
  {
    match s
    case SNode(n) => NodeThreads(n, depth, acc);
    case SList(es) => ListThreads(es, depth + 1, acc);
    case SDict(es) => EntriesThreads(es, depth + 1, acc);
  }

  lemma {:induction false} NodeThreads(n: Node, depth: nat, acc: seq<string>)
    ensures TransNode(n, depth, acc).enums == acc + HoistedByNode(n)
    ensures TransNode(n, depth, acc).text == TransNode(n, depth, []).text
    decreases n
  {
    match n
    case ObjectNode(_, ps) => PropsThreads(ps, depth, acc);
    case ArrayNode(_, items) =>
      if items.Some? && SchemaTruthy(items.value) {
        SchemaThreads(items.value, 0, acc);
        SchemaThreads(items.value, 0, []);
      }
    case StringNode(_, _) =>
    case IntegerNode(_, _, _) =>
    case FloatNode(_, _, _) =>
    case BooleanNode(_) =>
    case NullNode(_) =>
    case UnknownNode(_, _) =>
  }

  lemma {:induction false} ListThreads(es: seq<AnySchema>, depth: nat, acc: seq<string>)
    ensures TransList(es, depth, acc).enums == acc + HoistedByList(es)
    ensures TransList(es, depth, acc).text == TransList(es, depth, []).text
    decreases es
  {
    if es != [] {
      SchemaThreads(es[0], depth, acc);
      SchemaThreads(es[0], depth, []);
      ListThreads(es[1..], depth, TransSchema(es[0], depth, acc).enums);
      ListThreads(es[1..], depth, TransSchema(es[0], depth, []).enums);
    }
  }

  lemma {:induction false} EntriesThreads(es: seq<SEntry>, depth: nat, acc: seq<string>)
    ensures TransEntries(es, depth, acc).enums == acc + HoistedByEntries(es)
    ensures TransEntries(es, depth, acc).text == TransEntries(es, depth, []).text
    decreases es
  {
    if es != [] {
      SchemaThreads(es[0].value, depth, acc);
      SchemaThreads(es[0].value, depth, []);
      EntriesThreads(es[1..], depth, TransSchema(es[0].value, depth, acc).enums);
      EntriesThreads(es[1..], depth, TransSchema(es[0].value, depth, []).enums);
    }
  }

  lemma {:induction false} PropsThreads(ps: seq<Property>, depth: nat, acc: seq<string>)
    ensures TransProps(ps, depth, acc).enums == acc + HoistedByProps(ps)
    ensures TransProps(ps, depth, acc).text == TransProps(ps, depth, []).text
    decreases ps
  {
    if ps != [] {
      NodeThreads(ps[0].node, depth + 1, acc);
      NodeThreads(ps[0].node, depth + 1, []);
      PropsThreads(ps[1..], depth, TransNode(ps[0].node, depth + 1, acc).enums);
      PropsThreads(ps[1..], depth, TransNode(ps[0].node, depth + 1, []).enums);
    }
  }

  /** The lines of an object's body: each property, in order, with its child
      translated on its own one level deeper. */
  function PropLines(ps: seq<Property>, depth: nat): (r: seq<string>)
    ensures |r| == |ps|
  {
    seq(|ps|, i requires 0 <= i < |ps| => PropertyLine(ps[i], depth, TransNode(ps[i].node, depth + 1, []).text))
  }

  lemma {:induction false} PropsText(ps: seq<Property>, depth: nat, acc: seq<string>)
    ensures TransProps(ps, depth, acc).text == Concat(PropLines(ps, depth))
    decreases ps
  {
    if ps != [] {
      NodeThreads(ps[0].node, depth + 1, acc);
      PropsText(ps[1..], depth, TransNode(ps[0].node, depth + 1, acc).enums);
      assert PropLines(ps, depth)[1..] == PropLines(ps[1..], depth);
    }
  }

  /** A root object is `export type <Name> = {` … `};`, a nested one `{` …
      `}` with the brace indented two blanks per level; between them come
      the property lines in order. */
  lemma ObjectRendering(n: Node, depth: nat, acc: seq<string>)
    requires n.ObjectNode?
    ensures depth == 0 ==>
      TransNode(n, depth, acc).text == "export type " + ObjectName(n) + " = {\n" + Concat(PropLines(n.properties, depth)) + "};"
    ensures depth > 0 ==>
      TransNode(n, depth, acc).text == "{\n" + Concat(PropLines(n.properties, depth)) + MakePad(depth * 2) + "}"
  {
    PropsText(n.properties, depth, acc);
    var lines := Concat(PropLines(n.properties, depth));
    assert TransNode(n, depth, acc).text == ObjectOpen(n, depth) + lines + ObjectClose(depth);
    if depth == 0 {
      assert ObjectOpen(n, depth) == "export type " + ObjectName(n) + " = {\n";
      assert ObjectClose(depth) == "};";
    } else {
      assert ObjectOpen(n, depth) == "{\n";
      assert ObjectClose(depth) == MakePad(depth * 2) + "}";
    }
  }

  /** The type name of a root object is its key with every blank removed,
      or `SomeObject` when it has none: a blank between two parts of the key
      joins them, and a key without blanks is the name itself. */
  lemma ObjectNameSpec(n: Node, a: string, b: string)
    ensures ' ' !in ObjectName(n)
    ensures n.Key().Some? && n.Key().value != "" && ' ' !in n.Key().value ==> ObjectName(n) == n.Key().value
    ensures n.Key() == Some(a + " " + b) ==> ObjectName(n) == RemoveSpaces(a) + RemoveSpaces(b)
    ensures n.Key() == Some(a + " " + b) && ' ' !in a && ' ' !in b ==> ObjectName(n) == a + b
    ensures (n.Key().None? || n.Key().value == "") ==> ObjectName(n) == "SomeObject"
  {
    if n.Key().None? || n.Key().value == "" {
      assert ' ' !in "SomeObject";
    } else if n.Key() == Some(a + " " + b) {
      RemoveSpacesJoins(a, b);
    }
  }

  /** A property line is the indentation, the key, a `?` exactly when the
      child's `required` is not truthy, and then `: <type>;`. */
  lemma PropertyLineShape(p: Property, depth: nat, child: string)
    ensures var line := PropertyLine(p, depth, child);
      var k := depth * 2 + 2 + |p.key|;
      && |line| > k
      && line[..depth * 2 + 2] == MakePad(depth * 2 + 2)
      && line[depth * 2 + 2..k] == p.key
      && (line[k] == '?' <==> !Truthy(p.node.base.required))
      && line[|line| - 2..] == ";\n"
  {
    var line := PropertyLine(p, depth, child);
    var pad := MakePad(depth * 2 + 2);
    var rest := p.key + OptionalMark(p.node) + ": " + child + ";\n";
    assert line == pad + rest;
    assert line[..|pad|] == pad;
    assert line[|pad|..|pad| + |p.key|] == p.key;
    assert line[|pad| + |p.key|] == rest[|p.key|];
  }

  /** Leaves: both numeric kinds render as `number`, a string without values
      as `string`, the unknown kind as `unknown`, booleans and nulls as
      nothing; none of them hoists anything or depends on the depth. */
  lemma LeafRendering(n: Node, depth: nat, acc: seq<string>)
    requires !n.ObjectNode? && !n.ArrayNode?
    requires n.StringNode? ==> |n.base.enumValues| == 0
    ensures TransNode(n, depth, acc).enums == acc
    ensures (n.IntegerNode? || n.FloatNode?) <==> TransNode(n, depth, acc).text == "number"
    ensures n.StringNode? <==> TransNode(n, depth, acc).text == "string"
    ensures n.UnknownNode? <==> TransNode(n, depth, acc).text == "unknown"
    ensures (n.BooleanNode? || n.NullNode?) <==> TransNode(n, depth, acc).text == ""
  {
  }

  /** A string with values renders as its enum's name and hoists the
      declaration of that enum, named after its key or `_unknown_`. */
  lemma StringEnum(n: Node, depth: nat, acc: seq<string>)
    requires n.StringNode? && |n.base.enumValues| > 0
    ensures var name := KeyOr(n.Key(), "_unknown_");
      && TransNode(n, depth, acc).text == "E" + Title(name)
      && TransNode(n, depth, acc).enums == acc + [EnumDecl(name, n.base.enumValues)]
  {
  }

  /** An enum declaration: its header, one `  v = "v"` line per value in
      order, separated by `,\n`, and the closing `};`. Its name does not
      change when the key is already title-cased. */
  lemma EnumDeclShape(name: string, keys: seq<Raw>)
    ensures var members := EnumMembers(keys);
      && EnumDecl(name, keys) == "export enum E" + Title(name) + " {\n" + Join(",\n", members) + "\n};"
      && |members| == |keys|
      && (forall i :: 0 <= i < |keys| ==> members[i] == "  " + PyStr(keys[i]) + " = \"" + PyStr(keys[i]) + "\"")
    ensures EnumDecl(Title(name), keys) == EnumDecl(name, keys)
  {
    TitleIdempotent(name);
    assert MakePad(2) == "  ";
  }

  /** An array renders its truthy items translated at depth 0, whatever the
      array's own depth, and `Array<any>` otherwise. */
  lemma ArrayRendering(n: Node, depth: nat, acc: seq<string>)
    requires n.ArrayNode?
    ensures n.items.Some? && SchemaTruthy(n.items.value) ==>
      TransNode(n, depth, acc).text == "Array<" + TransSchema(n.items.value, 0, []).text + ">"
    ensures !(n.items.Some? && SchemaTruthy(n.items.value)) ==>
      TransNode(n, depth, acc).text == "Array<any>" && TransNode(n, depth, acc).enums == acc
  {
    if n.items.Some? && SchemaTruthy(n.items.value) {
      SchemaThreads(n.items.value, 0, acc);
    }
  }

  /** A root object's text opens with its declaration. */
  lemma RootObjectOpens(o: Node, acc: seq<string>)
    requires o.ObjectNode?
    ensures "export type " <= TransNode(o, 0, acc).text
  {
    var body := TransProps(o.properties, 0, acc).text;
    assert TransNode(o, 0, acc).text == ObjectOpen(o, 0) + body + ObjectClose(0);
    assert ObjectOpen(o, 0) == "export type " + (ObjectName(o) + " = {\n");
  }

  /** Because the items sit at depth 0, an object item is printed in its
      root form, declaration and all, inside the angle brackets. */
  lemma ArrayOfObjectIsExported(n: Node, depth: nat, acc: seq<string>)
    requires n.ArrayNode? && n.items.Some? && n.items.value.SNode? && n.items.value.node.ObjectNode?
    ensures "Array<export type " <= TransNode(n, depth, acc).text
  {
    ArrayRendering(n, depth, acc);
    RootObjectOpens(n.items.value.node, []);
    PrefixInside("Array<", "export type ", TransSchema(n.items.value, 0, []).text, ">");
  }

  lemma PrefixInside(before: string, p: string, t: string, after: string)
    requires p <= t
    ensures before + p <= before + t + after
  {
    assert (before + t + after)[..|before + p|] == before + p;
  }

  /** A list or a mapping renders as its elements' translations, one level
      deeper, concatenated in order. */
  lemma {:induction false} ListText(es: seq<AnySchema>, depth: nat, acc: seq<string>)
    ensures TransList(es, depth, acc).text ==
      Concat(seq(|es|, i requires 0 <= i < |es| => TransSchema(es[i], depth, []).text))
    decreases es
  {
    if es != [] {
      SchemaThreads(es[0], depth, acc);
      ListText(es[1..], depth, TransSchema(es[0], depth, acc).enums);
      assert seq(|es|, i requires 0 <= i < |es| => TransSchema(es[i], depth, []).text)[1..] ==
        seq(|es[1..]|, i requires 0 <= i < |es[1..]| => TransSchema(es[1..][i], depth, []).text);
    }
  }

  lemma {:induction false} EntriesText(es: seq<SEntry>, depth: nat, acc: seq<string>)
    ensures TransEntries(es, depth, acc).text ==
      Concat(seq(|es|, i requires 0 <= i < |es| => TransSchema(es[i].value, depth, []).text))
    decreases es
  {
    if es != [] {
      SchemaThreads(es[0].value, depth, acc);
      EntriesText(es[1..], depth, TransSchema(es[0].value, depth, acc).enums);
      assert seq(|es|, i requires 0 <= i < |es| => TransSchema(es[i].value, depth, []).text)[1..] ==
        seq(|es[1..]|, i requires 0 <= i < |es[1..]| => TransSchema(es[1..][i].value, depth, []).text);
    }
  }

  /** The output is the root's text alone when nothing was hoisted, and
      otherwise the root's text, a newline and the hoisted declarations in
      discovery order, one per line. */
  lemma TranslateOutput(s: AnySchema)
    ensures var body := TransSchema(s, 0, []).text;
      Translate(s).output == if Hoisted(s) == [] then body else body + "\n" + Join("\n", Hoisted(s))
  {
    SchemaThreads(s, 0, []);
    assert TransSchema(s, 0, []).enums == Hoisted(s);
  }
}
