/** The mongoengine backend: a printer that turns a parsed schema into
    document classes, threading three accumulators — the hoisted enum
    classes, the generated document classes and the set of import lines. */
module Mongoengine {
  import opened Results
  import opened Text
  import opened Json
  import opened Schema
  import opened Translation

  /** The one way translation aborts: an attribute lookup that Python
      answers with `AttributeError` (`ESchemaType.DATE`, `meta.get`,
      `baseclass_args.items`). */
  datatype MongoError = AttributeMissing(attr: string)

  /** How `ESchemaType.DATE` evaluates. The enum declares no such member, so
      as the code stands the lookup raises (`Raises`); `NeverEqual` is the
      evidently intended reading, a kind no node has. */
  datatype DateLookup = Raises | NeverEqual

  /** The `base_class` argument and the reading of `ESchemaType.DATE`. */
  datatype Options = Options(baseClass: string, date: DateLookup)

  /** The three accumulators of `_translate`. */
  datatype State = State(enums: seq<string>, classes: seq<string>, deps: set<string>)

  /** What `trans` returns, with the accumulators after the call. */
  datatype Step = Step(text: string, state: State)

  /** Accumulators only grow: lists are extended at the end, the set gains lines. */
  predicate Grows(before: State, after: State) {
    before.enums <= after.enums && before.classes <= after.classes && before.deps <= after.deps
  }

  const DepsMarker := "#<DEPS>"
  const PyrightHeader := "# pyright: basic"
  const DocumentImport := "from mongoengine import Document"
  const ReferenceFieldImport := "from mongoengine import ReferenceField"
  const IntFieldImport := "from mongoengine import IntField"
  const FloatFieldImport := "from mongoengine import FloatField"
  const StringFieldImport := "from mongoengine import StringField"
  const ListFieldImport := "from mongoengine import ListField"
  const FileFieldImport := "from mongoengine import FileField"
  const StrEnumImport := "from enum import StrEnum"
  const AnyImport := "from typing import Any"

  function AddDep(st: State, line: string): State {
    st.(deps := st.deps + {line})
  }

  /** The `python_types` table, looked up with a node's kind. */
  function PythonType(k: Kind): Option<string> {
    match k
    case StringKind => Some("str")
    case FloatKind => Some("float")
    case IntegerKind => Some("int")
    case _ => None
  }

  /** One flag as `get_flags` prints it: strings in single quotes, anything
      else as Python's `str` shows it. */
  function FlagText(f: Flag): string {
    f.name + "=" + (if f.value.JStr? then Quote(f.value.s) else PyStr(f.value))
  }

  /** The flags `get_flags` keeps: every one that is not `None` (already
      left out of `flags`) or `False`. */
  function ShownFlags(fs: seq<Flag>): (r: seq<string>)
    ensures |r| <= |fs|
    ensures (forall j :: 0 <= j < |fs| ==> fs[j].value != JBool(false)) ==> |r| == |fs|
    ensures forall i :: 0 <= i < |r| ==> exists j :: 0 <= j < |fs| && fs[j].value != JBool(false) && r[i] == FlagText(fs[j])
  {
    if fs == [] then []
    else (if fs[0].value == JBool(false) then [] else [FlagText(fs[0])]) + ShownFlags(fs[1..])
  }

  /** `get_flags(schema)` */
  function GetFlags(n: Node): seq<string> {
    ShownFlags(Flags(n))
  }

  /** The argument list of a field constructor. */
  function FlagArgs(n: Node): string {
    Join(", ", GetFlags(n))
  }

  /** `make_enum`'s class name. */
  function EnumName(name: string): string {
    "E" + FirstUpper(name)
  }

  function EnumLines(keys: seq<Raw>): (r: seq<string>)
    ensures |r| == |keys|
    ensures forall i :: 0 <= i < |keys| ==> r[i] == MakePad(4) + PyStr(keys[i]) + " = \"" + PyStr(keys[i]) + "\""
  {
    if keys == [] then [] else [MakePad(4) + PyStr(keys[0]) + " = \"" + PyStr(keys[0]) + "\""] + EnumLines(keys[1..])
  }

  /** The enum class `make_enum` hoists. */
  function EnumDecl(name: string, keys: seq<Raw>): string {
    "class " + EnumName(name) + "(StrEnum):\n" + Join("\n", EnumLines(keys))
  }

  /** The name `make_class` gives an object: its key or `SomeObject`, blanks
      removed, first letter upper-cased. */
  function DocumentName(n: Node): string {
    FirstUpper(RemoveSpaces(KeyOr(n.Key(), "SomeObject")))
  }

  /** `k=v` for each entry of `baseclass_args`. */
  function ArgTexts(ms: seq<Member>): (r: seq<string>)
    ensures |r| == |ms|
    ensures forall i :: 0 <= i < |ms| ==> r[i] == ms[i].key + "=" + PyStr(ms[i].value)
  {
    if ms == [] then [] else [ms[0].key + "=" + PyStr(ms[0].value)] + ArgTexts(ms[1..])
  }

  /** `meta.get('baseclass_args', dict())` joined with commas; `meta` and the
      arguments must both be mappings. */
  function BaseClassArgs(meta: Raw): (r: Result<string, MongoError>)
    ensures !meta.JObject? ==> r == Err(AttributeMissing("get"))
    ensures meta.JObject? && Get(meta.members, "baseclass_args").None? ==> r == Ok("")
    ensures meta.JObject? && Get(meta.members, "baseclass_args") == Some(JObject([])) ==> r == Ok("")
    ensures forall ms :: meta.JObject? && Get(meta.members, "baseclass_args") == Some(JObject(ms)) ==>
      r == Ok(Join(",", ArgTexts(ms)))
    ensures meta.JObject? && Get(meta.members, "baseclass_args").Some? && !Get(meta.members, "baseclass_args").value.JObject? ==>
      r == Err(AttributeMissing("items"))
  {
    if !meta.JObject? then Err(AttributeMissing("get"))
    else
      match Get(meta.members, "baseclass_args")
      case None => Ok("")
      case Some(JObject(ms)) => Ok(Join(",", ArgTexts(ms)))
      case Some(_) => Err(AttributeMissing("items"))
  }

  function ClassHeader(name: string, baseClass: string, args: string): string {
    "class " + name + "(" + baseClass + (if args != "" then "(" + args + ")" else "") + "):\n"
  }

  /** The type annotation after the key in `make_class`, and the field text
      (an object child becomes a reference to its class). */
  function FieldMark(v: Node, vstr: string, date: DateLookup): Result<(string, string), MongoError> {
    var byKind :=
      if v.ObjectNode? then ":'" + vstr + "'"
      else if v.ArrayNode? then
        ":list[" + (if v.items.Some? && v.items.value.SNode? then PythonType(v.items.value.node.Kind()).GetOr("Any") else "Any") + "]"
      else if PythonType(v.Kind()).Some? then ":" + PythonType(v.Kind()).value
      else ":Any";
    var field := if v.ObjectNode? then "ReferenceField('" + vstr + "')" else vstr;
    var byType :-
      if v.UnknownNode? then
        Ok(if !Truthy(v.typename) then byKind else if v.typename == JStr("file") then "" else ":" + PyStr(v.typename))
      else if date == Raises then Err(AttributeMissing("DATE"))
      else Ok(byKind);
    var mark :=
      match v.base.ref
      case RefName(s) => if s != "" then ":'" + s + "'" else byType
      case RefNode(t) => ":" + (if |t.base.enumValues| > 0 then "E" else "") + KeyOr(t.Key(), "_unknown_")
      case _ => byType;
    Ok((mark, field))
  }

  /** The line `make_class` writes for one property. */
  function FieldLine(key: string, mark: string, field: string): string {
    PadLeft(key + mark + " = " + field + "  # pyright: ignore\n", 4)
  }

  /** A `ref` that `trans` renders before looking at the kind: a non-empty
      name, or a node without enum values. */
  predicate RendersRef(r: Ref) {
    (r.RefName? && r.refName != "") || (r.RefNode? && |r.target.base.enumValues| == 0)
  }

  /** `trans(schema)`. The depth argument of the source reaches no output
      and is not modelled. */
  function TransSchema(s: AnySchema, st: State, opts: Options): (r: Result<Step, MongoError>)
    ensures r.Ok? ==> Grows(st, r.value.state)
    ensures r.Err? && opts.date == NeverEqual ==> r.error.attr != "DATE"
    decreases s, 3
  {
    match s
    case SNode(n) => TransNode(n, st, opts)
    case SList(es) => TransList(es, st, opts)
    case SDict(es) => TransEntries(es, st, opts)
  }

  function TransList(es: seq<AnySchema>, st: State, opts: Options): (r: Result<Step, MongoError>)
    ensures r.Ok? ==> Grows(st, r.value.state)
    ensures r.Err? && opts.date == NeverEqual ==> r.error.attr != "DATE"
    decreases es, 3
  {
    if es == [] then Ok(Step("", st))
    else
      var head :- TransSchema(es[0], st, opts);
      var tail :- TransList(es[1..], head.state, opts);
      Ok(Step(head.text + tail.text, tail.state))
  }

  function TransEntries(es: seq<SEntry>, st: State, opts: Options): (r: Result<Step, MongoError>)
    ensures r.Ok? ==> Grows(st, r.value.state)
    ensures r.Err? && opts.date == NeverEqual ==> r.error.attr != "DATE"
    decreases es, 3
  {
    if es == [] then Ok(Step("", st))
    else
      var head :- TransSchema(es[0].value, st, opts);
      var tail :- TransEntries(es[1..], head.state, opts);
      Ok(Step(head.text + tail.text, tail.state))
  }

  function TransNode(n: Node, st: State, opts: Options): (r: Result<Step, MongoError>)
    ensures r.Ok? ==> Grows(st, r.value.state)
    ensures r.Err? && opts.date == NeverEqual ==> r.error.attr != "DATE"
    decreases n, 2
  {
    if n.base.ref.RefName? && n.base.ref.refName != "" then
      Ok(Step("ReferenceField('" + n.base.ref.refName + "')", AddDep(st, ReferenceFieldImport)))
    else if n.base.ref.RefNode? && |n.base.ref.target.base.enumValues| == 0 then
      Ok(Step("ReferenceField('" + KeyText(n.base.ref.target.Key()) + "')", AddDep(st, ReferenceFieldImport)))
    else
      match n
      case ObjectNode(_, _) => MakeClass(n, st, opts)
      case IntegerNode(_, _, _) => Ok(Step("IntField(" + FlagArgs(n) + ")", AddDep(st, IntFieldImport)))
      case FloatNode(_, _, _) => Ok(Step("FloatField(" + FlagArgs(n) + ")", AddDep(st, FloatFieldImport)))
      case StringNode(b, _) =>
        if |b.enumValues| > 0 then
          var decl := EnumDecl(KeyOr(n.Key(), "_unknown_"), b.enumValues);
          Ok(Step("StringField(" + FlagArgs(n) + ")", AddDep(st, StrEnumImport).(enums := st.enums + [decl])))
        else Ok(Step("StringField(" + FlagArgs(n) + ")", AddDep(st, StringFieldImport)))
      case ArrayNode(_, items) =>
        var st' := AddDep(st, ListFieldImport);
        if items.Some? && SchemaTruthy(items.value) then
          var inner :- TransSchema(items.value, st', opts);
          Ok(Step("ListField(" + inner.text + ")", inner.state))
        else Ok(Step("ListField()", st'))
      case UnknownNode(_, typename) => Fallback(typename == JStr("file"), st, opts)
      case BooleanNode(_) => Fallback(false, st, opts)
      case NullNode(_) => Fallback(false, st, opts)
  }

  /** The tail of `trans` that booleans, nulls and unknown nodes reach,
      starting with the `ESchemaType.DATE` test; `isFile` says the node is
      unknown with typename `file`. */
  function Fallback(isFile: bool, st: State, opts: Options): (r: Result<Step, MongoError>)
    ensures r.Ok? ==> Grows(st, r.value.state)
    ensures r.Err? <==> opts.date == Raises
  {
    if opts.date == Raises then Err(AttributeMissing("DATE"))
    else if isFile then Ok(Step("FileField()", AddDep(st, FileFieldImport)))
    else Ok(Step("?", st))
  }

  /** `make_class(schema)`: the fields are translated first, so the classes
      of nested objects come before this one. */
  function MakeClass(n: Node, st: State, opts: Options): (r: Result<Step, MongoError>)
    requires n.ObjectNode?
    ensures r.Ok? ==> Grows(st, r.value.state)
    ensures r.Err? && opts.date == NeverEqual ==> r.error.attr != "DATE"
    decreases n, 1
  {
    var name := DocumentName(n);
    var args :- BaseClassArgs(n.base.meta);
    var body :- ClassFields(n.properties, st, opts);
    var content := ClassHeader(name, opts.baseClass, args) + body.text;
    Ok(Step(name, body.state.(classes := body.state.classes + [content])))
  }

  /** The property loop of `make_class`: one line per property, in order. */
  function ClassFields(ps: seq<Property>, st: State, opts: Options): (r: Result<Step, MongoError>)
    ensures r.Ok? ==> Grows(st, r.value.state)
    ensures r.Err? && opts.date == NeverEqual ==> r.error.attr != "DATE"
    decreases ps, 3
  {
    if ps == [] then Ok(Step("", st))
    else
      var v := ps[0].node;
      var child :- TransNode(v, st, opts);
      var fm :- FieldMark(v, child.text, opts.date);
      var deps := child.state.deps
        + (if v.ObjectNode? then {ReferenceFieldImport} else {})
        + (if fm.0 == ":Any" then {AnyImport} else {});
      var tail :- ClassFields(ps[1..], child.state.(deps := deps), opts);
      Ok(Step(FieldLine(ps[0].key, fm.0, fm.1) + tail.text, tail.state))
  }

  /** The import lines a translation starts with. */
  function InitialDeps(baseClass: string, extraDeps: Option<seq<string>>): set<string> {
    (if extraDeps.Some? then set x | x in extraDeps.value else {})
    + (if baseClass == "Document" then {DocumentImport} else {})
  }

  /** The translation under either reading of `ESchemaType.DATE`; the text
      `trans` returns for the root is discarded. */
  function TranslateWith(s: AnySchema, baseClass: string, extraDeps: Option<seq<string>>, date: DateLookup): (r: Result<Translation, MongoError>)
    ensures r.Ok? ==> r.value.extension == ".py" && r.value.head == [PyrightHeader]
    ensures r.Ok? ==> DepsMarker <= r.value.output
    ensures r.Ok? ==> InitialDeps(baseClass, extraDeps) <= r.value.deps
  {
    var root :- TransSchema(s, State([], [], InitialDeps(baseClass, extraDeps)), Options(baseClass, date));
    var st := root.state;
    var output := DepsMarker
      + (if |st.enums| > 0 then "\n" + Join("\n", st.enums) + "\n" else "")
      + (if |st.classes| > 0 then "\n" + Join("\n", st.classes) else "");
    Ok(Translation(output, ".py", st.deps, [PyrightHeader]))
  }

  /** `translate(schema, base_class, extra_deps)` as the code stands: any
      boolean, null or unknown node without a rendered `ref`, and any object
      property whose kind is not unknown, aborts it. */
  function TranslateAsWritten(s: AnySchema, baseClass: string, extraDeps: Option<seq<string>>): Result<Translation, MongoError> {
    TranslateWith(s, baseClass, extraDeps, Raises)
  }

  /** `translate` with `ESchemaType.DATE` read as a kind no node has. */
  function Translate(s: AnySchema, baseClass: string, extraDeps: Option<seq<string>>): (r: Result<Translation, MongoError>)
    ensures r.Err? ==> r.error.attr != "DATE"
  {
    TranslateWith(s, baseClass, extraDeps, NeverEqual)
  }
}
