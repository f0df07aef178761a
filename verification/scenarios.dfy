/** Concrete documents run through the parser and the backends: the minimal
    object schema, a document without `type`, an empty `type` at the root and
    under `properties`, and a document the mongoengine code cannot render.
    Every document is parsed with the empty reference context. */
module Scenarios {
  import opened Results
  import opened Text
  import opened Json
  import opened Schema
  import opened Parser
  import opened ParserProps
  import Mongoengine
  import MongoengineProps

  /** The shared fields of a node whose mapping sets none of them. */
  function DefaultBase(kind: Kind): Base {
    Base(Plain(JNull), None, None, [], ListOf([]), Plain(JNull), Plain(JNull),
      if kind == ObjectKind then JList([]) else JBool(false),
      JNull, JBool(false), NoRef, JObject([]))
  }

  /** `{"type": "string"}` */
  const StringDoc: seq<Member> := [Member("type", JStr("string"))]
  const StringCopy: Copy := map["type" := Plain(JStr("string"))]

  /** `["a"]` */
  const RequiredA: Raw := JList([JStr("a")])
  const PropA: Member := Member("a", JObject(StringDoc))
  const PropsMember: Member := Member("properties", JObject([PropA]))
  const RequiredMember: Member := Member("required", RequiredA)

  /** `{"type": "object", "properties": {"a": {"type": "string"}}, "required": ["a"]}` */
  const MinimalObject: seq<Member> := [Member("type", JStr("object")), PropsMember, RequiredMember]

  /** The parsed property `a`: a string node named `a`, marked required. */
  const ChildA: Node := StringNode(DefaultBase(StringKind).(name := Some("a"), required := JBool(true)), Plain(JNull))
  const MinimalCopy: Copy :=
    map["type" := Plain(JStr("object")), "properties" := PropsOf([Property("a", ChildA)]), "required" := ListOf([Plain(JStr("a"))])]

  lemma StringDocCopied(crumbs: seq<Crumb>)
    ensures CopyFields(StringDoc, StringDoc, crumbs, map[], map[]) == Ok(StringCopy)
  {
    ConvertMemberOther(StringDoc, StringDoc[0], crumbs, map[]);
    assert StringDoc[1..] == [];
  }

  lemma StringDocParses(crumbs: seq<Crumb>, crumb: Option<Crumb>)
    ensures ParseNode(StringDoc, crumbs, crumb, map[]) == Ok(StringNode(DefaultBase(StringKind), Plain(JNull)))
  {
    StringDocCopied(crumbs);
    assert FirstUndeclared(StringDoc, StringKind) == None by {
      assert StringDoc[1..] == [];
    }
    assert SelectVariant(Get(StringDoc, "type"), crumbs, crumb) == Ok((StringKind, JStr("string"))) by {
      assert Get(StringDoc, "type") == Some(JStr("string"));
    }
    StringBase();
  }

  lemma StringBase()
    ensures BuildBase(StringKind, StringCopy) == Ok(DefaultBase(StringKind))
  {
  }

  lemma PropertyAParsed()
    ensures ParsePropertyChild(RequiredA, PropA, [], map[]) == Ok(ChildA)
  {
    StringDocParses([KeyCrumb("properties"), KeyCrumb("a")], Some(KeyCrumb("a")));
  }

  lemma PropertiesLoop()
    ensures ConvertProps(RequiredA, [PropA], [], map[]) == Ok([Property("a", ChildA)])
  {
    PropertyAParsed();
    ConvertPropsCons(RequiredA, [PropA], [], map[]);
    assert [PropA][1..] == [];
    assert [PropA][0] == PropA;
    assert ConvertProps(RequiredA, [], [], map[]) == Ok([]);
    assert [Property("a", ChildA)] + [] == [Property("a", ChildA)];
  }

  lemma RequiredConverted()
    ensures ConvertMember(MinimalObject, RequiredMember, [], map[]) == Ok(("required", ListOf([Plain(JStr("a"))])))
  {
    ConvertMemberOther(MinimalObject, RequiredMember, [], map[]);
    ConvertListCons([JStr("a")], 0, [KeyCrumb("required")], map[]);
    assert [JStr("a")][1..] == [];
    assert [Plain(JStr("a"))] + [] == [Plain(JStr("a"))];
  }

  lemma RequiredListed()
    ensures Get(MinimalObject, "required") == Some(RequiredA)
  {
    var ms := MinimalObject;
    assert ms[1..][1..] == ms[2..] == [RequiredMember];
    assert Get(ms[2..], "required") == Some(RequiredA);
    assert Get(ms[1..], "required") == Some(RequiredA);
  }

  lemma MinimalCopied()
    ensures CopyFields(MinimalObject, MinimalObject, [], map[], map[]) == Ok(MinimalCopy)
  {
    PropertiesLoop();
    RequiredListed();
    ConvertMemberProperties(MinimalObject, PropsMember, [], map[]);
    RequiredConverted();
    ConvertMemberOther(MinimalObject, MinimalObject[0], [], map[]);
    var ms := MinimalObject;
    assert ms[0] == Member("type", JStr("object")) && ms[1] == PropsMember && ms[2] == RequiredMember;
    assert ms[1..][1..] == ms[2..] && ms[2..][1..] == [];
    var c1 := map["type" := Plain(JStr("object"))];
    var c2 := c1["properties" := PropsOf([Property("a", ChildA)])];
    var c3 := c2["required" := ListOf([Plain(JStr("a"))])];
    assert c3 == MinimalCopy;
    CopyFieldsCons(ms, ms[2..], [], map[], c2);
    CopyFieldsCons(ms, ms[1..], [], map[], c1);
    CopyFieldsCons(ms, ms, [], map[], map[]);
    assert map[]["type" := Plain(JStr("object"))] == c1;
  }

  lemma MinimalDeclared()
    ensures FirstUndeclared(MinimalObject, ObjectKind) == None
  {
    var ms := MinimalObject;
    assert ms[1..][1..] == ms[2..] && ms[2..][1..] == [];
  }

  lemma MinimalBase()
    ensures BuildBase(ObjectKind, MinimalCopy) == Ok(DefaultBase(ObjectKind).(required := RequiredA))
  {
    assert "enum" !in MinimalCopy;
    assert ToLiterals([]) == Some([]);
    assert EnumField(MinimalCopy, "SchemaObject") == Ok([]);
    assert ToLiterals([Plain(JStr("a"))]) == Some([JStr("a")]) by {
      assert [Plain(JStr("a"))][1..] == [];
      assert [JStr("a")] + [] == [JStr("a")];
    }
    assert LiteralField(MinimalCopy, "required", JList([]), "SchemaObject") == Ok(RequiredA);
  }

  lemma MinimalBuilt()
    ensures Build(MinimalObject, ObjectKind, JStr("object"), MinimalCopy) ==
      Ok(ObjectNode(DefaultBase(ObjectKind).(required := RequiredA), [Property("a", ChildA)]))
  {
    MinimalDeclared();
    MinimalBase();
  }

  /** The minimal object schema parses to an object node with one property,
      `a`, a string node named `a` and marked required. */
  lemma MinimalObjectParses()
    ensures Parse(JObject(MinimalObject), map[]) ==
      Ok(ObjectNode(DefaultBase(ObjectKind).(required := RequiredA), [Property("a", ChildA)]))
  {
    MinimalCopied();
    MinimalBuilt();
    assert SelectVariant(Get(MinimalObject, "type"), [], None) == Ok((ObjectKind, JStr("object")));
  }

  /** A mapping without `type` is not an error: it becomes the unknown
      variant with typename `UNKNOWN`. */
  lemma UntypedIsUnknown()
    ensures Parse(JObject([]), map[]) == Ok(UnknownNode(DefaultBase(UnknownKind), JStr("UNKNOWN")))
  {
  }

  /** `{"type": ""}` */
  const EmptyTyped: seq<Member> := [Member("type", JStr(""))]

  /** An empty `type` fails at the root, with the path of the node ... */
  lemma EmptyTypeAtRoot()
    ensures Parse(JObject(EmptyTyped), map[]) == Err(MissingType(""))
  {
  }

  /** A property value is not exempt from that check: the path names the
      property ... */
  lemma EmptyTypedProperty()
    ensures ParsePropertyChild(JList([]), Member("b", JObject(EmptyTyped)), [], map[]) == Err(MissingType("properties.b"))
  {
    var path := [KeyCrumb("properties"), KeyCrumb("b")];
    assert [] + path == path;
    assert CopyFields(EmptyTyped, EmptyTyped, path, map[], map[]).Ok? by {
      ConvertMemberOther(EmptyTyped, EmptyTyped[0], path, map[]);
      assert EmptyTyped[1..] == [];
    }
    PathOfB();
  }

  lemma PathOfB()
    ensures PathText([KeyCrumb("properties"), KeyCrumb("b")]) == "properties.b"
  {
    var crumbs := [KeyCrumb("properties"), KeyCrumb("b")];
    var parts := seq(|crumbs|, i requires 0 <= i < |crumbs| => CrumbText(crumbs[i]));
    assert parts == ["properties", "b"];
    assert parts[1..] == ["b"];
    assert Join(".", parts) == "properties" + "." + "b";
    assert "properties" + "." + "b" == "properties.b";
  }

  /** ... only a node reached under the key `properties` is, here a property
      that is itself named `properties`: it becomes the unknown variant
      keeping the empty typename. */
  lemma EmptyTypedPropertiesKey(crumbs: seq<Crumb>)
    ensures ParsePropertyChild(JList([]), Member("properties", JObject(EmptyTyped)), crumbs, map[]) ==
      Ok(UnknownNode(DefaultBase(UnknownKind).(name := Some("properties")), JStr("")))
  {
    EmptyTypedExempt(crumbs + [KeyCrumb("properties"), KeyCrumb("properties")]);
  }

  lemma EmptyTypedExempt(crumbs: seq<Crumb>)
    ensures ParseNode(EmptyTyped, crumbs, Some(KeyCrumb("properties")), map[]) ==
      Ok(UnknownNode(DefaultBase(UnknownKind), JStr("")))
  {
    var copy := map["type" := Plain(JStr(""))];
    assert CopyFields(EmptyTyped, EmptyTyped, crumbs, map[], map[]) == Ok(copy) by {
      ConvertMemberOther(EmptyTyped, EmptyTyped[0], crumbs, map[]);
      assert EmptyTyped[1..] == [];
    }
    assert FirstUndeclared(EmptyTyped, UnknownKind) == None by {
      assert EmptyTyped[1..] == [];
    }
    assert SelectVariant(Get(EmptyTyped, "type"), crumbs, Some(KeyCrumb("properties"))) == Ok((UnknownKind, JStr(""))) by {
      assert Get(EmptyTyped, "type") == Some(JStr(""));
    }
    UnknownBase();
  }

  lemma UnknownBase()
    ensures BuildBase(UnknownKind, map["type" := Plain(JStr(""))]) == Ok(DefaultBase(UnknownKind))
  {
  }

  /** An integer property named `n`. */
  const CountProperty: Property :=
    Property("n", IntegerNode(DefaultBase(IntegerKind).(name := Some("n")), Plain(JNull), Plain(JNull)))

  /** A document `Plain` with that one property. */
  const PlainDocument: Node := ObjectNode(DefaultBase(ObjectKind).(title := Some("Plain")), [CountProperty])

  lemma PlainFields(date: Mongoengine.DateLookup, st: Mongoengine.State)
    ensures date == Mongoengine.Raises ==>
      Mongoengine.ClassFields(PlainDocument.properties, st, Mongoengine.Options("Document", date)) ==
        Err(Mongoengine.AttributeMissing("DATE"))
    ensures date == Mongoengine.NeverEqual ==>
      Mongoengine.ClassFields(PlainDocument.properties, st, Mongoengine.Options("Document", date)).Ok?
  {
    var opts := Mongoengine.Options("Document", date);
    var v := CountProperty.node;
    assert Mongoengine.TransNode(v, st, opts).Ok?;
    assert [CountProperty] + [] == [CountProperty];
    if date == Mongoengine.Raises {
      MongoengineProps.AsWrittenPropertyRaises(CountProperty, [], st, opts);
    } else {
      MongoengineProps.FieldMarkSpec(v, Mongoengine.TransNode(v, st, opts).value.text);
      assert [CountProperty][1..] == [];
    }
  }

  /** The mongoengine code as written cannot render a document with an
      integer field: the `DATE` comparison of `make_class` raises. Read as
      intended, the same document translates. */
  lemma PlainDocumentDate()
    ensures Mongoengine.TranslateAsWritten(SNode(PlainDocument), "Document", None) == Err(Mongoengine.AttributeMissing("DATE"))
    ensures Mongoengine.Translate(SNode(PlainDocument), "Document", None).Ok?
  {
    var st := Mongoengine.State([], [], Mongoengine.InitialDeps("Document", None));
    assert Mongoengine.BaseClassArgs(JObject([])) == Ok("");
    PlainFields(Mongoengine.Raises, st);
    PlainFields(Mongoengine.NeverEqual, st);
    var raises := Mongoengine.Options("Document", Mongoengine.Raises);
    var intended := Mongoengine.Options("Document", Mongoengine.NeverEqual);
    assert Mongoengine.MakeClass(PlainDocument, st, raises) == Err(Mongoengine.AttributeMissing("DATE"));
    assert Mongoengine.TransSchema(SNode(PlainDocument), st, raises) == Err(Mongoengine.AttributeMissing("DATE"));
    assert Mongoengine.MakeClass(PlainDocument, st, intended).Ok?;
    assert Mongoengine.TransSchema(SNode(PlainDocument), st, intended).Ok?;
  }
}
