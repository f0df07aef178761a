/** Properties of the mongoengine backend: the accumulators are pure, each
    kind maps to its field, flags and marks render as the source prints
    them, and the `ESchemaType.DATE` lookup aborts the code as written. */
module MongoengineProps {
  import opened Results
  import opened Text
  import opened Json
  import opened Schema
  import opened Translation
  import opened Mongoengine

  const Empty := State([], [], {})

  /** `r` is what `r0`, computed from empty accumulators, becomes when the
      accumulators start at `st`: the same outcome and text, with `st`'s
      enums and classes in front and its import lines added. */
  ghost predicate Extends(st: State, r: Result<Step, MongoError>, r0: Result<Step, MongoError>) {
    && r.Ok? == r0.Ok?
    && (r.Err? ==> r.error == r0.error)
    && (r.Ok? ==>
          && r.value.text == r0.value.text
          && r.value.state.enums == st.enums + r0.value.state.enums
          && r.value.state.classes == st.classes + r0.value.state.classes
          && r.value.state.deps == st.deps + r0.value.state.deps)
  }

  /** Chaining: a step from `mid` that extends a step from `mid0`, where
      `mid` itself extends `mid0` from `st`, extends from `st`. */
  lemma ExtendsChain(st: State, mid: State, mid0: State, r: Result<Step, MongoError>, r1: Result<Step, MongoError>, r0: Result<Step, MongoError>)
    requires mid.enums == st.enums + mid0.enums && mid.classes == st.classes + mid0.classes && mid.deps == st.deps + mid0.deps
    requires Extends(mid, r, r1) && Extends(mid0, r0, r1)
    ensures Extends(st, r, r0)
  {
    if r.Ok? {
      assert r.value.state.enums == st.enums + mid0.enums + r1.value.state.enums;
      assert r.value.state.classes == st.classes + mid0.classes + r1.value.state.classes;
    }
  }

  /** The accumulators are threaded purely: what `trans` returns and what it
      appends do not depend on what was collected before. */
  lemma {:induction false} SchemaAppends(s: AnySchema, st: State, opts: Options)
    ensures Extends(st, TransSchema(s, st, opts), TransSchema(s, Empty, opts))
    decreases s, 3
  {
    match s
    case SNode(n) => NodeAppends(n, st, opts);
    case SList(es) => ListAppends(es, st, opts);
    case SDict(es) => EntriesAppends(es, st, opts);
  }

  lemma {:induction false} ListAppends(es: seq<AnySchema>, st: State, opts: Options)
    ensures Extends(st, TransList(es, st, opts), TransList(es, Empty, opts))
    decreases es, 3
  {
    if es != [] {
      SchemaAppends(es[0], st, opts);
      var head := TransSchema(es[0], st, opts);
      var head0 := TransSchema(es[0], Empty, opts);
      if head.Ok? {
        ListAppends(es[1..], head.value.state, opts);
        ListAppends(es[1..], head0.value.state, opts);
        ExtendsChain(st, head.value.state, head0.value.state,
          TransList(es[1..], head.value.state, opts), TransList(es[1..], Empty, opts), TransList(es[1..], head0.value.state, opts));
      }
    }
  }

  lemma {:induction false} EntriesAppends(es: seq<SEntry>, st: State, opts: Options)
    ensures Extends(st, TransEntries(es, st, opts), TransEntries(es, Empty, opts))
    decreases es, 3
  {
    if es != [] {
      SchemaAppends(es[0].value, st, opts);
      var head := TransSchema(es[0].value, st, opts);
      var head0 := TransSchema(es[0].value, Empty, opts);
      if head.Ok? {
        EntriesAppends(es[1..], head.value.state, opts);
        EntriesAppends(es[1..], head0.value.state, opts);
        ExtendsChain(st, head.value.state, head0.value.state,
          TransEntries(es[1..], head.value.state, opts), TransEntries(es[1..], Empty, opts), TransEntries(es[1..], head0.value.state, opts));
      }
    }
  }

  lemma {:induction false} NodeAppends(n: Node, st: State, opts: Options)
    ensures Extends(st, TransNode(n, st, opts), TransNode(n, Empty, opts))
    decreases n, 2
  {
    if !RendersRef(n.base.ref) {
      match n
      case ObjectNode(_, _) => ClassAppends(n, st, opts);
      case ArrayNode(_, _) => ArrayAppends(n, st, opts);
      case StringNode(_, _) =>
      case IntegerNode(_, _, _) =>
      case FloatNode(_, _, _) =>
      case BooleanNode(_) =>
      case NullNode(_) =>
      case UnknownNode(_, _) =>
    }
  }

  lemma {:induction false} ArrayAppends(n: Node, st: State, opts: Options)
    requires n.ArrayNode? && !RendersRef(n.base.ref)
    ensures Extends(st, TransNode(n, st, opts), TransNode(n, Empty, opts))
    decreases n, 1
  {
    if n.items.Some? && SchemaTruthy(n.items.value) {
      var st' := AddDep(st, ListFieldImport);
      var e' := AddDep(Empty, ListFieldImport);
      SchemaAppends(n.items.value, st', opts);
      SchemaAppends(n.items.value, e', opts);
      ExtendsChain(st, st', e', TransSchema(n.items.value, st', opts), TransSchema(n.items.value, Empty, opts), TransSchema(n.items.value, e', opts));
    }
  }

  lemma {:induction false} ClassAppends(n: Node, st: State, opts: Options)
    requires n.ObjectNode?
    ensures Extends(st, MakeClass(n, st, opts), MakeClass(n, Empty, opts))
    decreases n, 1
  {
    FieldsAppend(n.properties, st, opts);
    var body := ClassFields(n.properties, st, opts);
    if body.Ok? && BaseClassArgs(n.base.meta).Ok? {
      var body0 := ClassFields(n.properties, Empty, opts);
      var content := ClassHeader(DocumentName(n), opts.baseClass, BaseClassArgs(n.base.meta).value) + body.value.text;
      assert MakeClass(n, st, opts).value.state.classes == st.classes + body0.value.state.classes + [content];
    }
  }

  lemma {:induction false} FieldsAppend(ps: seq<Property>, st: State, opts: Options)
    ensures Extends(st, ClassFields(ps, st, opts), ClassFields(ps, Empty, opts))
    decreases ps, 3
  {
    if ps != [] {
      var v := ps[0].node;
      NodeAppends(v, st, opts);
      var child := TransNode(v, st, opts);
      var child0 := TransNode(v, Empty, opts);
      if child.Ok? && FieldMark(v, child.value.text, opts.date).Ok? {
        var fm := FieldMark(v, child.value.text, opts.date).value;
        var extra := (if v.ObjectNode? then {ReferenceFieldImport} else {}) + (if fm.0 == ":Any" then {AnyImport} else {});
        var mid := child.value.state.(deps := child.value.state.deps + extra);
        var mid0 := child0.value.state.(deps := child0.value.state.deps + extra);
        assert child.value.state.deps + (if v.ObjectNode? then {ReferenceFieldImport} else {}) + (if fm.0 == ":Any" then {AnyImport} else {})
          == mid.deps;
        assert child0.value.state.deps + (if v.ObjectNode? then {ReferenceFieldImport} else {}) + (if fm.0 == ":Any" then {AnyImport} else {})
          == mid0.deps;
        FieldsAppend(ps[1..], mid, opts);
        FieldsAppend(ps[1..], mid0, opts);
        ExtendsChain(st, mid, mid0, ClassFields(ps[1..], mid, opts), ClassFields(ps[1..], Empty, opts), ClassFields(ps[1..], mid0, opts));
      }
    }
  }

  /** A flag as `get_flags` shows it, or nothing for `None` and `False`. */
  function Shown(name: string, value: Raw): seq<string> {
    if value == JNull || value == JBool(false) then [] else [FlagText(Flag(name, value))]
  }

  lemma {:induction false} ShownFlagsAppend(a: seq<Flag>, b: seq<Flag>)
    ensures ShownFlags(a + b) == ShownFlags(a) + ShownFlags(b)
    decreases a
  {
    if a == [] {
      assert a + b == b;
    } else {
      assert (a + b)[0] == a[0];
      assert (a + b)[1..] == a[1..] + b;
      ShownFlagsAppend(a[1..], b);
    }
  }

  /** The flags of a node, one group per field. */
  function FlagGroup(name: string, value: Raw): seq<Flag> {
    if value != JNull then [Flag(name, value)] else []
  }

  lemma ShownGroup(name: string, value: Raw)
    ensures ShownFlags(FlagGroup(name, value)) == Shown(name, value)
  {
    if value != JNull {
      assert [Flag(name, value)][1..] == [];
    }
  }

  /** `get_flags` prints `required`, `default` and `unique` in that order,
      leaving out exactly those that are `None` or `False`. */
  lemma GetFlagsSpec(n: Node)
    ensures GetFlags(n) == Shown("required", n.base.required) + Shown("default", n.base.default) + Shown("unique", n.base.unique)
  {
    var b := n.base;
    var fr := FlagGroup("required", b.required);
    var fd := FlagGroup("default", b.default);
    var fu := FlagGroup("unique", b.unique);
    assert Flags(n) == fr + fd + fu;
    ShownFlagsAppend(fr + fd, fu);
    ShownFlagsAppend(fr, fd);
    ShownGroup("required", b.required);
    ShownGroup("default", b.default);
    ShownGroup("unique", b.unique);
  }

  /** A string flag value is printed in single quotes, any other value as
      Python's `str` shows it. */
  lemma FlagQuoting(name: string, value: Raw)
    ensures value.JStr? ==> FlagText(Flag(name, value)) == name + "='" + value.s + "'"
    ensures !value.JStr? ==> FlagText(Flag(name, value)) == name + "=" + PyStr(value)
  {
  }

  /** A `ref` is rendered before the kind is looked at: a non-empty name as
      a reference to that name, a node without enum values as a reference
      to its key; either adds the ReferenceField import and nothing else. */
  lemma RefFirst(n: Node, st: State, opts: Options)
    requires RendersRef(n.base.ref)
    ensures var target := if n.base.ref.RefName? then n.base.ref.refName else KeyText(n.base.ref.target.Key());
      TransNode(n, st, opts) == Ok(Step("ReferenceField('" + target + "')", AddDep(st, ReferenceFieldImport)))
  {
  }

  /** Without a rendered `ref`, integers, floats and strings without values
      become their field with the node's flags, each adding its import. */
  lemma TypeMapping(n: Node, st: State, opts: Options)
    requires !RendersRef(n.base.ref)
    ensures n.IntegerNode? ==> TransNode(n, st, opts) == Ok(Step("IntField(" + Join(", ", GetFlags(n)) + ")", AddDep(st, IntFieldImport)))
    ensures n.FloatNode? ==> TransNode(n, st, opts) == Ok(Step("FloatField(" + Join(", ", GetFlags(n)) + ")", AddDep(st, FloatFieldImport)))
    ensures n.StringNode? && |n.base.enumValues| == 0 ==>
      TransNode(n, st, opts) == Ok(Step("StringField(" + Join(", ", GetFlags(n)) + ")", AddDep(st, StringFieldImport)))
  {
  }

  /** A string with values hoists its enum class and imports `StrEnum`, but
      the StringField import it renders is not added. */
  lemma EnumStringHoists(n: Node, st: State, opts: Options)
    requires !RendersRef(n.base.ref) && n.StringNode? && |n.base.enumValues| > 0
    ensures var r := TransNode(n, st, opts);
      && r.Ok?
      && r.value.text == "StringField(" + Join(", ", GetFlags(n)) + ")"
      && r.value.state.enums == st.enums + [EnumDecl(KeyOr(n.Key(), "_unknown_"), n.base.enumValues)]
      && r.value.state.classes == st.classes
      && r.value.state.deps == st.deps + {StrEnumImport}
      && (StringFieldImport in r.value.state.deps <==> StringFieldImport in st.deps)
  {
  }

  /** An enum class: `class E<Key>(StrEnum):` and one `    v = "v"` line per
      value, in order. An empty key stays empty. */
  lemma EnumDeclShape(name: string, keys: seq<Raw>)
    ensures var lines := EnumLines(keys);
      && EnumDecl(name, keys) == "class E" + FirstUpper(name) + "(StrEnum):\n" + Join("\n", lines)
      && |lines| == |keys|
      && (forall i :: 0 <= i < |keys| ==> lines[i] == "    " + PyStr(keys[i]) + " = \"" + PyStr(keys[i]) + "\"")
    ensures name == "" ==> EnumName(name) == "E"
  {
    assert MakePad(4) == "    ";
  }

  /** An array adds the ListField import and wraps its truthy items,
      translated afterwards; without items it is `ListField()`. */
  lemma ArrayMapping(n: Node, st: State, opts: Options)
    requires !RendersRef(n.base.ref) && n.ArrayNode?
    ensures !(n.items.Some? && SchemaTruthy(n.items.value)) ==>
      TransNode(n, st, opts) == Ok(Step("ListField()", AddDep(st, ListFieldImport)))
    ensures n.items.Some? && SchemaTruthy(n.items.value) ==>
      var inner := TransSchema(n.items.value, AddDep(st, ListFieldImport), opts);
      TransNode(n, st, opts) == if inner.Ok? then Ok(Step("ListField(" + inner.value.text + ")", inner.value.state)) else Err(inner.error)
  {
  }

  /** With the intended reading of `ESchemaType.DATE`, booleans and nulls
      render as the `?` placeholder, and an unknown node as a FileField
      exactly when its typename is `file`. */
  lemma CorrectedFallback(n: Node, st: State, opts: Options)
    requires !RendersRef(n.base.ref) && opts.date == NeverEqual
    requires n.BooleanNode? || n.NullNode? || n.UnknownNode?
    ensures n.UnknownNode? && n.typename == JStr("file") ==>
      TransNode(n, st, opts) == Ok(Step("FileField()", AddDep(st, FileFieldImport)))
    ensures !(n.UnknownNode? && n.typename == JStr("file")) ==> TransNode(n, st, opts) == Ok(Step("?", st))
  {
  }

  /** As the code stands, every boolean, null or unknown node without a
      rendered `ref` aborts on the missing `ESchemaType.DATE`. */
  lemma AsWrittenDateRaises(n: Node, st: State, opts: Options)
    requires !RendersRef(n.base.ref) && opts.date == Raises
    requires n.BooleanNode? || n.NullNode? || n.UnknownNode?
    ensures TransNode(n, st, opts) == Err(AttributeMissing("DATE"))
  {
  }

  /** As the code stands, a property whose kind is not unknown aborts its
      class once its own field has been translated. */
  lemma AsWrittenPropertyRaises(p: Property, ps: seq<Property>, st: State, opts: Options)
    requires opts.date == Raises && !p.node.UnknownNode?
    requires TransNode(p.node, st, opts).Ok?
    ensures ClassFields([p] + ps, st, opts) == Err(AttributeMissing("DATE"))
  {
    assert ([p] + ps)[0] == p;
  }

  /** The annotation `make_class` writes for a property, under the intended
      reading of `ESchemaType.DATE`: a `ref` decides first, then the kind. */
  lemma FieldMarkSpec(v: Node, vstr: string)
    ensures FieldMark(v, vstr, NeverEqual).Ok?
    ensures var mark := FieldMark(v, vstr, NeverEqual).value.0;
      var field := FieldMark(v, vstr, NeverEqual).value.1;
      && field == (if v.ObjectNode? then "ReferenceField('" + vstr + "')" else vstr)
      && (v.base.ref.RefName? && v.base.ref.refName != "" ==> mark == ":'" + v.base.ref.refName + "'")
      && (v.base.ref.RefNode? ==>
            mark == ":" + (if |v.base.ref.target.base.enumValues| > 0 then "E" else "") + KeyOr(v.base.ref.target.Key(), "_unknown_"))
      && (!v.base.ref.RefNode? && !(v.base.ref.RefName? && v.base.ref.refName != "") ==>
            && (v.ObjectNode? ==> mark == ":'" + vstr + "'")
            && (v.IntegerNode? ==> mark == ":int")
            && (v.FloatNode? ==> mark == ":float")
            && (v.StringNode? ==> mark == ":str")
            && (v.BooleanNode? || v.NullNode? ==> mark == ":Any")
            && (v.ArrayNode? && !(v.items.Some? && v.items.value.SNode?) ==> mark == ":list[Any]")
            && (v.UnknownNode? && v.typename == JStr("file") ==> mark == "")
            && (v.UnknownNode? && v.typename.JStr? && v.typename.s !in {"", "file"} ==> mark == ":" + v.typename.s)
            && (v.UnknownNode? && !Truthy(v.typename) ==> mark == ":Any"))
  {
  }

  /** An array property's annotation names the Python type of its items
      when they are a single string, number or integer node. */
  lemma ListMark(v: Node, vstr: string)
    requires v.ArrayNode? && !v.base.ref.RefNode? && !(v.base.ref.RefName? && v.base.ref.refName != "")
    requires v.items.Some? && v.items.value.SNode?
    ensures var k := v.items.value.node.Kind();
      FieldMark(v, vstr, NeverEqual).value.0 ==
        ":list[" + (if k == StringKind then "str" else if k == FloatKind then "float" else if k == IntegerKind then "int" else "Any") + "]"
  {
  }

  /** The line `make_class` writes for a property, with its field translated
      from empty accumulators (which, by `NodeAppends`, gives the same text). */
  function LineOf(p: Property, opts: Options): Result<string, MongoError> {
    var child :- TransNode(p.node, Empty, opts);
    var fm :- FieldMark(p.node, child.text, opts.date);
    Ok(FieldLine(p.key, fm.0, fm.1))
  }

  /** All lines of a class body, in property order. */
  ghost predicate LinesOk(ps: seq<Property>, opts: Options) {
    forall i :: 0 <= i < |ps| ==> LineOf(ps[i], opts).Ok?
  }

  function Lines(ps: seq<Property>, opts: Options): (r: seq<string>)
    ensures |r| == |ps|
  {
    seq(|ps|, i requires 0 <= i < |ps| => var l := LineOf(ps[i], opts); if l.Ok? then l.value else "")
  }

  lemma LinesShift(ps: seq<Property>, opts: Options)
    requires ps != []
    ensures LinesOk(ps, opts) <==> LineOf(ps[0], opts).Ok? && LinesOk(ps[1..], opts)
    ensures Lines(ps, opts) == [Lines(ps, opts)[0]] + Lines(ps[1..], opts)
  {
    forall i | 0 <= i < |ps[1..]|
      ensures ps[1..][i] == ps[i + 1]
    {
    }
    assert Lines(ps, opts)[1..] == Lines(ps[1..], opts);
  }

  /** A class body is one line per property, in order; it is written
      exactly when every property's line can be. */
  lemma {:induction false} ClassFieldsLines(ps: seq<Property>, st: State, opts: Options)
    ensures ClassFields(ps, st, opts).Ok? <==> LinesOk(ps, opts)
    ensures ClassFields(ps, st, opts).Ok? ==> ClassFields(ps, st, opts).value.text == Concat(Lines(ps, opts))
    decreases ps
  {
    if ps != [] {
      LinesShift(ps, opts);
      var v := ps[0].node;
      NodeAppends(v, st, opts);
      var child := TransNode(v, st, opts);
      if child.Ok? && FieldMark(v, child.value.text, opts.date).Ok? {
        var fm := FieldMark(v, child.value.text, opts.date).value;
        var deps := child.value.state.deps
          + (if v.ObjectNode? then {ReferenceFieldImport} else {})
          + (if fm.0 == ":Any" then {AnyImport} else {});
        ClassFieldsLines(ps[1..], child.value.state.(deps := deps), opts);
      }
    }
  }

  /** An object without a rendered `ref` becomes a class: `trans` returns its
      name, and its class, header first, is appended after the classes of
      its fields; a `meta` that is not a mapping, or `baseclass_args` that
      are not one, abort it. */
  lemma ClassRendering(n: Node, st: State, opts: Options)
    requires n.ObjectNode? && !RendersRef(n.base.ref)
    ensures var r := TransNode(n, st, opts);
      && (r.Ok? <==> BaseClassArgs(n.base.meta).Ok? && LinesOk(n.properties, opts))
      && (r.Ok? ==>
            var args := BaseClassArgs(n.base.meta).value;
            var cs := r.value.state.classes;
            && r.value.text == DocumentName(n)
            && |cs| > |st.classes|
            && st.classes <= cs[..|cs| - 1]
            && cs[|cs| - 1] ==
                 "class " + DocumentName(n) + "(" + opts.baseClass + (if args == "" then "" else "(" + args + ")") + "):\n"
                 + Concat(Lines(n.properties, opts)))
  {
    ClassFieldsLines(n.properties, st, opts);
  }

  /** The class name: the key with every blank removed and its first letter
      upper-cased, and `SomeObject` for an object without a key. A blank
      between two parts of the key joins them: `my doc` gives `Mydoc`. */
  lemma DocumentNameSpec(n: Node, a: string, b: string)
    ensures (n.Key().None? || n.Key().value == "") ==> DocumentName(n) == "SomeObject"
    ensures n.Key().Some? && n.Key().value != "" && ' ' !in n.Key().value ==> DocumentName(n) == FirstUpper(n.Key().value)
    ensures n.Key() == Some(a + " " + b) ==> DocumentName(n) == FirstUpper(RemoveSpaces(a) + RemoveSpaces(b))
    ensures n.Key() == Some(a + " " + b) && ' ' !in a && ' ' !in b ==> DocumentName(n) == FirstUpper(a + b)
  {
    if n.Key().None? || n.Key().value == "" {
      SomeObjectUnchanged();
    } else if n.Key() == Some(a + " " + b) {
      RemoveSpacesJoins(a, b);
    }
  }

  lemma SomeObjectUnchanged()
    ensures FirstUpper(RemoveSpaces("SomeObject")) == "SomeObject"
  {
    assert ' ' !in "SomeObject";
  }

  /** `sep.join(xs)` begins with the first string. */
  lemma JoinStartsWithFirst(sep: string, xs: seq<string>)
    requires |xs| > 0
    ensures xs[0] <= Join(sep, xs)
  {
    if |xs| > 1 {
      assert Join(sep, xs) == xs[0] + (sep + Join(sep, xs[1..]));
    }
  }

  /** The class header carries the `(…)` suffix exactly when
      `baseclass_args` has an entry, and the suffix starts with the first
      entry's `k=v`. */
  lemma ArgsSuffix(ms: seq<Member>)
    ensures Join(",", ArgTexts(ms)) == "" <==> ms == []
    ensures ms != [] ==> ms[0].key + "=" + PyStr(ms[0].value) <= Join(",", ArgTexts(ms))
  {
    if ms != [] {
      JoinStartsWithFirst(",", ArgTexts(ms));
      assert ArgTexts(ms)[0] == ms[0].key + "=" + PyStr(ms[0].value);
      assert |ArgTexts(ms)[0]| > 0;
    }
  }

  /** Whether `make_class` leaves a property's annotation at `:Any`. The
      field text does not matter (see `MarkIgnoresText`), so the empty one
      stands for it. */
  predicate MarkedAny(v: Node, date: DateLookup) {
    var fm := FieldMark(v, "", date);
    fm.Ok? && fm.value.0 == ":Any"
  }

  /** The annotation reads `:Any` whatever the field text: only an object's
      own annotation quotes that text, and it is never `:Any`. */
  lemma MarkIgnoresText(v: Node, vstr: string, date: DateLookup)
    ensures FieldMark(v, vstr, date).Ok? <==> FieldMark(v, "", date).Ok?
    ensures FieldMark(v, vstr, date).Ok? ==> (FieldMark(v, vstr, date).value.0 == ":Any" <==> MarkedAny(v, date))
  {
    if v.ObjectNode? {
      assert (":'" + vstr + "'")[1] == '\'';
      assert (":'" + "" + "'")[1] == '\'';
    }
  }

  /** The property loop of `make_class` imports `ReferenceField` for every
      object property and `typing.Any` for every property whose annotation
      stays `:Any`. */
  lemma {:induction false} FieldImports(ps: seq<Property>, st: State, opts: Options, i: int)
    requires 0 <= i < |ps|
    requires ClassFields(ps, st, opts).Ok?
    ensures ps[i].node.ObjectNode? ==> ReferenceFieldImport in ClassFields(ps, st, opts).value.state.deps
    ensures MarkedAny(ps[i].node, opts.date) ==> AnyImport in ClassFields(ps, st, opts).value.state.deps
    decreases ps
  {
    var v := ps[0].node;
    var child := TransNode(v, st, opts).value;
    var fm := FieldMark(v, child.text, opts.date).value;
    var deps := child.state.deps
      + (if v.ObjectNode? then {ReferenceFieldImport} else {})
      + (if fm.0 == ":Any" then {AnyImport} else {});
    var tail := ClassFields(ps[1..], child.state.(deps := deps), opts);
    assert ClassFields(ps, st, opts).value.state == tail.value.state;
    if i == 0 {
      MarkIgnoresText(v, child.text, opts.date);
    } else {
      FieldImports(ps[1..], child.state.(deps := deps), opts, i - 1);
      assert ps[1..][i - 1] == ps[i];
    }
  }

  /** An object that becomes a class imports `ReferenceField` when one of its
      properties is an object, and `typing.Any` when one keeps the `:Any`
      annotation. */
  lemma ClassImports(n: Node, st: State, opts: Options, i: int)
    requires n.ObjectNode? && !RendersRef(n.base.ref)
    requires 0 <= i < |n.properties|
    requires TransNode(n, st, opts).Ok?
    ensures n.properties[i].node.ObjectNode? ==> ReferenceFieldImport in TransNode(n, st, opts).value.state.deps
    ensures MarkedAny(n.properties[i].node, opts.date) ==> AnyImport in TransNode(n, st, opts).value.state.deps
  {
    assert TransNode(n, st, opts) == MakeClass(n, st, opts);
    FieldImports(n.properties, st, opts, i);
  }

  /** The import lines of a translation are the initial ones (every extra
      line, and the Document import for the default base class) together
      with those the schema needs. */
  lemma TranslateDeps(s: AnySchema, baseClass: string, extraDeps: Option<seq<string>>)
    requires Translate(s, baseClass, extraDeps).Ok?
    ensures var r0 := TransSchema(s, Empty, Options(baseClass, NeverEqual));
      && r0.Ok?
      && Translate(s, baseClass, extraDeps).value.deps == InitialDeps(baseClass, extraDeps) + r0.value.state.deps
    ensures extraDeps.Some? ==> forall x :: x in extraDeps.value ==> x in Translate(s, baseClass, extraDeps).value.deps
    ensures baseClass == "Document" ==> DocumentImport in Translate(s, baseClass, extraDeps).value.deps
  {
    SchemaAppends(s, State([], [], InitialDeps(baseClass, extraDeps)), Options(baseClass, NeverEqual));
  }

  /** The output is the marker, then the enum classes (when there are any),
      then the document classes (when there are any); the root's own text
      is not part of it. */
  lemma OutputAssembly(s: AnySchema, baseClass: string, extraDeps: Option<seq<string>>)
    requires Translate(s, baseClass, extraDeps).Ok?
    ensures TransSchema(s, Empty, Options(baseClass, NeverEqual)).Ok?
    ensures var st0 := TransSchema(s, Empty, Options(baseClass, NeverEqual)).value.state;
      Translate(s, baseClass, extraDeps).value.output ==
        "#<DEPS>"
        + (if st0.enums == [] then "" else "\n" + Join("\n", st0.enums) + "\n")
        + (if st0.classes == [] then "" else "\n" + Join("\n", st0.classes))
  {
    var opts := Options(baseClass, NeverEqual);
    var init := State([], [], InitialDeps(baseClass, extraDeps));
    SchemaAppends(s, init, opts);
    var st := TransSchema(s, init, opts).value.state;
    var st0 := TransSchema(s, Empty, opts).value.state;
    assert st.enums == st0.enums;
    assert st.classes == st0.classes;
  }

  /** A root that hoists nothing and makes no class, such as a single
      integer field, translates to the bare marker. */
  lemma LeafRootOutput(n: Node, baseClass: string, extraDeps: Option<seq<string>>)
    requires !RendersRef(n.base.ref)
    requires n.IntegerNode? || n.FloatNode? || (n.StringNode? && |n.base.enumValues| == 0)
    ensures Translate(SNode(n), baseClass, extraDeps).Ok?
    ensures Translate(SNode(n), baseClass, extraDeps).value.output == "#<DEPS>"
  {
    TypeMapping(n, State([], [], InitialDeps(baseClass, extraDeps)), Options(baseClass, NeverEqual));
  }

  /** The correction changes only runs that abort: whenever the code as
      written produces a translation, the corrected one is the same. */
  ghost predicate Agrees(written: Result<Step, MongoError>, corrected: Result<Step, MongoError>) {
    written.Ok? ==> corrected == written
  }

  lemma {:induction false} SchemaAgrees(s: AnySchema, st: State, base: string)
    ensures Agrees(TransSchema(s, st, Options(base, Raises)), TransSchema(s, st, Options(base, NeverEqual)))
    decreases s, 3
  {
    match s
    case SNode(n) => NodeAgrees(n, st, base);
    case SList(es) => ListAgrees(es, st, base);
    case SDict(es) => EntriesAgrees(es, st, base);
  }

  lemma {:induction false} ListAgrees(es: seq<AnySchema>, st: State, base: string)
    ensures Agrees(TransList(es, st, Options(base, Raises)), TransList(es, st, Options(base, NeverEqual)))
    decreases es, 3
  {
    if es != [] {
      SchemaAgrees(es[0], st, base);
      var head := TransSchema(es[0], st, Options(base, Raises));
      if head.Ok? {
        ListAgrees(es[1..], head.value.state, base);
      }
    }
  }

  lemma {:induction false} EntriesAgrees(es: seq<SEntry>, st: State, base: string)
    ensures Agrees(TransEntries(es, st, Options(base, Raises)), TransEntries(es, st, Options(base, NeverEqual)))
    decreases es, 3
  {
    if es != [] {
      SchemaAgrees(es[0].value, st, base);
      var head := TransSchema(es[0].value, st, Options(base, Raises));
      if head.Ok? {
        EntriesAgrees(es[1..], head.value.state, base);
      }
    }
  }

  lemma {:induction false} NodeAgrees(n: Node, st: State, base: string)
    ensures Agrees(TransNode(n, st, Options(base, Raises)), TransNode(n, st, Options(base, NeverEqual)))
    decreases n, 2
  {
    if !RendersRef(n.base.ref) {
      match n
      case ObjectNode(_, _) => ClassAgrees(n, st, base);
      case ArrayNode(_, items) =>
        if items.Some? && SchemaTruthy(items.value) {
          SchemaAgrees(items.value, AddDep(st, ListFieldImport), base);
        }
      case StringNode(_, _) =>
      case IntegerNode(_, _, _) =>
      case FloatNode(_, _, _) =>
      case BooleanNode(_) =>
      case NullNode(_) =>
      case UnknownNode(_, _) =>
    }
  }

  lemma {:induction false} ClassAgrees(n: Node, st: State, base: string)
    requires n.ObjectNode?
    ensures Agrees(MakeClass(n, st, Options(base, Raises)), MakeClass(n, st, Options(base, NeverEqual)))
    decreases n, 1
  {
    FieldsAgree(n.properties, st, base);
  }

  lemma {:induction false} FieldsAgree(ps: seq<Property>, st: State, base: string)
    ensures Agrees(ClassFields(ps, st, Options(base, Raises)), ClassFields(ps, st, Options(base, NeverEqual)))
    decreases ps, 3
  {
    if ps != [] {
      var v := ps[0].node;
      NodeAgrees(v, st, base);
      var child := TransNode(v, st, Options(base, Raises));
      if child.Ok? && FieldMark(v, child.value.text, Raises).Ok? {
        var fm := FieldMark(v, child.value.text, Raises).value;
        assert FieldMark(v, child.value.text, NeverEqual) == Ok(fm);
        var deps := child.value.state.deps
          + (if v.ObjectNode? then {ReferenceFieldImport} else {})
          + (if fm.0 == ":Any" then {AnyImport} else {});
        FieldsAgree(ps[1..], child.value.state.(deps := deps), base);
      }
    }
  }

  /** Whenever the code as written translates a schema, the corrected
      translation gives the same result. */
  lemma AsWrittenAgrees(s: AnySchema, baseClass: string, extraDeps: Option<seq<string>>)
    ensures TranslateAsWritten(s, baseClass, extraDeps).Ok? ==>
      Translate(s, baseClass, extraDeps) == TranslateAsWritten(s, baseClass, extraDeps)
  {
    SchemaAgrees(s, State([], [], InitialDeps(baseClass, extraDeps)), baseClass);
  }
}
