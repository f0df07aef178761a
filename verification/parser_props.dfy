/** Properties of the parser: what each raw member becomes, how property
    children are named and marked required, how the variant is chosen, and
    when construction fails. */
module ParserProps {
  import opened Results
  import opened Json
  import opened Schema
  import opened Parser

  /** Parsing a property value in place, before it is named and marked. */
  function ChildParse(m: Member, crumbs: seq<Crumb>, ctx: Context): Result<Node, ParseError> {
    match m.value
    case JObject(ms) => ParseNode(ms, crumbs + [KeyCrumb("properties"), KeyCrumb(m.key)], Some(KeyCrumb(m.key)), ctx)
    case _ => Err(NotAMapping(""))
  }

  /** `p` is the parsed property `pk` after the parent named it and set its
      `required` flag: its key is its title when that is non-empty, else `pk`. */
  ghost predicate NamedAndMarked(requiredKeys: Raw, pk: string, parsed: Node, p: Property) {
    var key := if parsed.base.title.Some? && parsed.base.title.value != "" then parsed.base.title.value else pk;
    var listed := requiredKeys.JList? && key != "" && JStr(key) in requiredKeys.items;
    && p.key == pk
    && p.node.base.name == Some(pk)
    && p.node.base.required == (if listed then JBool(true) else parsed.base.required)
    && p.node == parsed.(base := parsed.base.(name := Some(pk), required := p.node.base.required))
  }

  lemma ChildSpec(requiredKeys: Raw, m: Member, crumbs: seq<Crumb>, ctx: Context)
    ensures ParsePropertyChild(requiredKeys, m, crumbs, ctx).Ok? <==> m.value.JObject? && ChildParse(m, crumbs, ctx).Ok?
    ensures ParsePropertyChild(requiredKeys, m, crumbs, ctx).Ok? ==>
      ChildNamed(requiredKeys, m, crumbs, ctx, Property(m.key, ParsePropertyChild(requiredKeys, m, crumbs, ctx).value))
  {
  }

  /** One step of the `properties` loop. */
  lemma ConvertPropsCons(requiredKeys: Raw, pes: seq<Member>, crumbs: seq<Crumb>, ctx: Context)
    requires pes != []
    ensures ConvertProps(requiredKeys, pes, crumbs, ctx).Ok? <==>
      ParsePropertyChild(requiredKeys, pes[0], crumbs, ctx).Ok? && ConvertProps(requiredKeys, pes[1..], crumbs, ctx).Ok?
    ensures ConvertProps(requiredKeys, pes, crumbs, ctx).Ok? ==>
      ConvertProps(requiredKeys, pes, crumbs, ctx).value ==
        [Property(pes[0].key, ParsePropertyChild(requiredKeys, pes[0], crumbs, ctx).value)] +
        ConvertProps(requiredKeys, pes[1..], crumbs, ctx).value
  {
  }

  /** Every property value is a mapping that parses. */
  ghost predicate ChildrenParse(pes: seq<Member>, crumbs: seq<Crumb>, ctx: Context) {
    forall j :: 0 <= j < |pes| ==> ChildParse(pes[j], crumbs, ctx).Ok?
  }

  /** Property `p` is the raw property `m` parsed, named and marked. */
  ghost predicate ChildNamed(requiredKeys: Raw, m: Member, crumbs: seq<Crumb>, ctx: Context, p: Property) {
    ChildParse(m, crumbs, ctx).Ok? && NamedAndMarked(requiredKeys, m.key, ChildParse(m, crumbs, ctx).value, p)
  }

  /** `ps` holds, in raw order, every property named and marked. */
  ghost predicate ChildrenNamed(requiredKeys: Raw, pes: seq<Member>, crumbs: seq<Crumb>, ctx: Context, ps: seq<Property>) {
    |ps| == |pes| &&
    forall j :: 0 <= j < |pes| ==> ChildNamed(requiredKeys, pes[j], crumbs, ctx, ps[j])
  }

  lemma ChildrenParseShift(pes: seq<Member>, crumbs: seq<Crumb>, ctx: Context)
    requires pes != []
    ensures ChildrenParse(pes, crumbs, ctx) <==>
      ChildParse(pes[0], crumbs, ctx).Ok? && ChildrenParse(pes[1..], crumbs, ctx)
  {
    forall j | 0 <= j < |pes[1..]|
      ensures pes[1..][j] == pes[j + 1]
    {
    }
  }

  lemma ChildrenNamedShift(requiredKeys: Raw, pes: seq<Member>, crumbs: seq<Crumb>, ctx: Context, ps: seq<Property>)
    requires pes != [] && ps != []
    ensures ChildrenNamed(requiredKeys, pes, crumbs, ctx, ps) <==>
      ChildNamed(requiredKeys, pes[0], crumbs, ctx, ps[0]) &&
      ChildrenNamed(requiredKeys, pes[1..], crumbs, ctx, ps[1..])
  {
    forall j | 0 <= j < |pes[1..]|
      ensures pes[1..][j] == pes[j + 1]
    {
    }
    forall j | 0 <= j < |ps[1..]|
      ensures ps[1..][j] == ps[j + 1]
    {
    }
  }

  /** The `properties` loop keeps the raw order, names every child after its
      key and marks it required exactly when the parent lists its key; it
      fails exactly when some property value is not a mapping or fails to parse. */
  lemma {:induction false} ConvertPropsSpec(requiredKeys: Raw, pes: seq<Member>, crumbs: seq<Crumb>, ctx: Context)
    ensures ConvertProps(requiredKeys, pes, crumbs, ctx).Ok? <==> ChildrenParse(pes, crumbs, ctx)
    ensures ConvertProps(requiredKeys, pes, crumbs, ctx).Ok? ==>
      ChildrenNamed(requiredKeys, pes, crumbs, ctx, ConvertProps(requiredKeys, pes, crumbs, ctx).value)
    decreases pes
  {
    if pes != [] {
      ConvertPropsCons(requiredKeys, pes, crumbs, ctx);
      ChildSpec(requiredKeys, pes[0], crumbs, ctx);
      ConvertPropsSpec(requiredKeys, pes[1..], crumbs, ctx);
      ChildrenParseShift(pes, crumbs, ctx);
      var r := ConvertProps(requiredKeys, pes, crumbs, ctx);
      if r.Ok? {
        ChildrenNamedShift(requiredKeys, pes, crumbs, ctx, r.value);
      }
    }
  }

  /** One step of the list loop. */
  lemma ConvertListCons(items: seq<Raw>, start: nat, path: seq<Crumb>, ctx: Context)
    requires items != []
    ensures ConvertList(items, start, path, ctx).Ok? <==>
      ConvertElement(items[0], start, path, ctx).Ok? && ConvertList(items[1..], start + 1, path, ctx).Ok?
    ensures ConvertList(items, start, path, ctx).Ok? ==>
      ConvertList(items, start, path, ctx).value ==
        [ConvertElement(items[0], start, path, ctx).value] + ConvertList(items[1..], start + 1, path, ctx).value
  {
  }

  /** A mapping element is parsed as a node at its index; every other
      element is kept unchanged. */
  lemma ConvertElementSpec(item: Raw, index: nat, path: seq<Crumb>, ctx: Context)
    ensures !item.JObject? ==> ConvertElement(item, index, path, ctx) == Ok(Plain(item))
    ensures item.JObject? ==>
      var n := ParseNode(item.members, path + [IndexCrumb(index)], Some(IndexCrumb(index)), ctx);
      ConvertElement(item, index, path, ctx) == if n.Ok? then Ok(Parsed(n.value)) else Err(n.error)
  {
  }

  /** Every element converts. */
  ghost predicate ElementsConvert(items: seq<Raw>, start: nat, path: seq<Crumb>, ctx: Context) {
    forall i :: 0 <= i < |items| ==> ConvertElement(items[i], start + i, path, ctx).Ok?
  }

  /** `vs` holds, position by position, what each element converts to. */
  ghost predicate ElementsMatch(items: seq<Raw>, start: nat, path: seq<Crumb>, ctx: Context, vs: seq<Value>) {
    |vs| == |items| &&
    forall i :: 0 <= i < |items| ==> ConvertElement(items[i], start + i, path, ctx) == Ok(vs[i])
  }

  lemma ElementsShift(items: seq<Raw>, start: nat, path: seq<Crumb>, ctx: Context, vs: seq<Value>)
    requires items != []
    ensures ElementsConvert(items, start, path, ctx) <==>
      ConvertElement(items[0], start, path, ctx).Ok? && ElementsConvert(items[1..], start + 1, path, ctx)
    ensures vs != [] ==>
      (ElementsMatch(items, start, path, ctx, vs) <==>
        ConvertElement(items[0], start, path, ctx) == Ok(vs[0]) && ElementsMatch(items[1..], start + 1, path, ctx, vs[1..]))
  {
    forall i | 0 <= i < |items[1..]|
      ensures items[1..][i] == items[i + 1]
    {
    }
    if vs != [] {
      forall i | 0 <= i < |vs[1..]|
        ensures vs[1..][i] == vs[i + 1]
      {
      }
    }
  }

  /** List values keep their length and order: element `i` of the result is
      what element `i` of the raw list converts to, and the list fails
      exactly when one of its elements does. */
  lemma {:induction false} ConvertListSpec(items: seq<Raw>, start: nat, path: seq<Crumb>, ctx: Context)
    ensures ConvertList(items, start, path, ctx).Ok? <==> ElementsConvert(items, start, path, ctx)
    ensures ConvertList(items, start, path, ctx).Ok? ==>
      ElementsMatch(items, start, path, ctx, ConvertList(items, start, path, ctx).value)
    decreases items
  {
    if items != [] {
      ConvertListCons(items, start, path, ctx);
      ConvertListSpec(items[1..], start + 1, path, ctx);
      var r := ConvertList(items, start, path, ctx);
      if r.Ok? {
        ElementsShift(items, start, path, ctx, r.value);
      } else {
        ElementsShift(items, start, path, ctx, []);
      }
    }
  }

  /** No later member of `ms` translates to the same key as member `i`. */
  ghost predicate LastWithKey(ms: seq<Member>, i: int)
    requires 0 <= i < |ms|
  {
    forall j :: i < j < |ms| ==> TranslateKey(ms[j].key) != TranslateKey(ms[i].key)
  }

  /** One step of the member loop. */
  lemma CopyFieldsCons(data: seq<Member>, rest: seq<Member>, crumbs: seq<Crumb>, ctx: Context, copy: Copy)
    requires rest != []
    ensures var e := ConvertMember(data, rest[0], crumbs, ctx);
      CopyFields(data, rest, crumbs, ctx, copy) ==
        if e.Err? then Err(e.error) else CopyFields(data, rest[1..], crumbs, ctx, copy[e.value.0 := e.value.1])
  {
  }

  /** Every member converts. */
  ghost predicate MembersConvert(data: seq<Member>, rest: seq<Member>, crumbs: seq<Crumb>, ctx: Context) {
    forall i :: 0 <= i < |rest| ==> ConvertMember(data, rest[i], crumbs, ctx).Ok?
  }

  lemma MembersShift(data: seq<Member>, rest: seq<Member>, crumbs: seq<Crumb>, ctx: Context)
    requires rest != []
    ensures MembersConvert(data, rest, crumbs, ctx) <==>
      ConvertMember(data, rest[0], crumbs, ctx).Ok? && MembersConvert(data, rest[1..], crumbs, ctx)
  {
    forall i | 0 <= i < |rest[1..]|
      ensures rest[1..][i] == rest[i + 1]
    {
    }
  }

  /** The member loop fails exactly when some member fails. */
  lemma {:induction false} CopyFieldsOk(data: seq<Member>, rest: seq<Member>, crumbs: seq<Crumb>, ctx: Context, copy: Copy)
    ensures CopyFields(data, rest, crumbs, ctx, copy).Ok? <==> MembersConvert(data, rest, crumbs, ctx)
    decreases rest
  {
    if rest != [] {
      CopyFieldsCons(data, rest, crumbs, ctx, copy);
      MembersShift(data, rest, crumbs, ctx);
      var e := ConvertMember(data, rest[0], crumbs, ctx);
      if e.Ok? {
        CopyFieldsOk(data, rest[1..], crumbs, ctx, copy[e.value.0 := e.value.1]);
      }
    }
  }

  /** Python dict assignment, one entry after the other: a later entry with
      the same key overwrites an earlier one. */
  function Assign(copy: Copy, es: seq<(string, Value)>): (r: Copy)
    ensures forall k :: k in copy ==> k in r
    decreases |es|
  {
    if es == [] then copy else Assign(copy[es[0].0 := es[0].1], es[1..])
  }

  /** A key that no entry assigns keeps its value. */
  lemma {:induction false} AssignKeeps(copy: Copy, es: seq<(string, Value)>, k: string)
    requires k in copy
    requires forall j :: 0 <= j < |es| ==> es[j].0 != k
    ensures k in Assign(copy, es) && Assign(copy, es)[k] == copy[k]
    decreases |es|
  {
    if es != [] {
      assert es[0].0 != k;
      forall j | 0 <= j < |es[1..]|
        ensures es[1..][j].0 != k
      {
        assert es[1..][j] == es[j + 1];
      }
      AssignKeeps(copy[es[0].0 := es[0].1], es[1..], k);
    }
  }

  /** The last entry with a key decides its value. */
  lemma {:induction false} AssignLast(copy: Copy, es: seq<(string, Value)>, i: int)
    requires 0 <= i < |es|
    requires forall j :: i < j < |es| ==> es[j].0 != es[i].0
    ensures es[i].0 in Assign(copy, es) && Assign(copy, es)[es[i].0] == es[i].1
    decreases |es|
  {
    var copy' := copy[es[0].0 := es[0].1];
    if i == 0 {
      forall j | 0 <= j < |es[1..]|
        ensures es[1..][j].0 != es[0].0
      {
        assert es[1..][j] == es[j + 1];
      }
      AssignKeeps(copy', es[1..], es[0].0);
    } else {
      forall j | i - 1 < j < |es[1..]|
        ensures es[1..][j].0 != es[1..][i - 1].0
      {
        assert es[1..][j] == es[j + 1];
      }
      AssignLast(copy', es[1..], i - 1);
    }
  }

  /** `es` lists what each member converts to. */
  ghost predicate EntriesOf(data: seq<Member>, rest: seq<Member>, crumbs: seq<Crumb>, ctx: Context, es: seq<(string, Value)>) {
    |es| == |rest| &&
    forall i :: 0 <= i < |rest| ==> ConvertMember(data, rest[i], crumbs, ctx) == Ok(es[i])
  }

  lemma EntriesShift(data: seq<Member>, rest: seq<Member>, crumbs: seq<Crumb>, ctx: Context, es: seq<(string, Value)>)
    requires rest != [] && es != []
    ensures EntriesOf(data, rest, crumbs, ctx, es) <==>
      ConvertMember(data, rest[0], crumbs, ctx) == Ok(es[0]) && EntriesOf(data, rest[1..], crumbs, ctx, es[1..])
  {
    forall i | 0 <= i < |rest[1..]|
      ensures rest[1..][i] == rest[i + 1]
    {
    }
    forall i | 0 <= i < |es[1..]|
      ensures es[1..][i] == es[i + 1]
    {
    }
  }

  /** The member loop assigns, in raw order, what each member converts to. */
  lemma {:induction false} CopyFieldsEntries(data: seq<Member>, rest: seq<Member>, crumbs: seq<Crumb>, ctx: Context, copy: Copy)
    returns (es: seq<(string, Value)>)
    requires CopyFields(data, rest, crumbs, ctx, copy).Ok?
    ensures EntriesOf(data, rest, crumbs, ctx, es)
    ensures CopyFields(data, rest, crumbs, ctx, copy).value == Assign(copy, es)
    decreases rest
  {
    if rest == [] {
      es := [];
    } else {
      CopyFieldsCons(data, rest, crumbs, ctx, copy);
      var e := ConvertMember(data, rest[0], crumbs, ctx).value;
      var tail := CopyFieldsEntries(data, rest[1..], crumbs, ctx, copy[e.0 := e.1]);
      es := [e] + tail;
      assert es[1..] == tail;
      EntriesShift(data, rest, crumbs, ctx, es);
    }
  }

  /** `out` holds, under each translated key, the value of the last member
      with that key. */
  ghost predicate HoldsLast(data: seq<Member>, rest: seq<Member>, crumbs: seq<Crumb>, ctx: Context, out: Copy) {
    forall i :: 0 <= i < |rest| && LastWithKey(rest, i) ==>
      TranslateKey(rest[i].key) in out &&
      ConvertMember(data, rest[i], crumbs, ctx) == Ok((TranslateKey(rest[i].key), out[TranslateKey(rest[i].key)]))
  }

  /** Keys that no member of `rest` writes keep their value. */
  ghost predicate KeepsOthers(rest: seq<Member>, copy: Copy, out: Copy) {
    forall k :: k in copy && (forall i :: 0 <= i < |rest| ==> TranslateKey(rest[i].key) != k) ==> k in out && out[k] == copy[k]
  }

  /** When the member loop succeeds, every translated key holds the value of
      the last member with that key (a Python dict assignment overwrites)
      and other keys keep their value. */
  lemma CopyFieldsLast(data: seq<Member>, rest: seq<Member>, crumbs: seq<Crumb>, ctx: Context, copy: Copy)
    requires CopyFields(data, rest, crumbs, ctx, copy).Ok?
    ensures HoldsLast(data, rest, crumbs, ctx, CopyFields(data, rest, crumbs, ctx, copy).value)
    ensures KeepsOthers(rest, copy, CopyFields(data, rest, crumbs, ctx, copy).value)
  {
    var es := CopyFieldsEntries(data, rest, crumbs, ctx, copy);
    var out := CopyFields(data, rest, crumbs, ctx, copy).value;
    forall i | 0 <= i < |rest|
      ensures es[i].0 == TranslateKey(rest[i].key)
    {
      assert ConvertMember(data, rest[i], crumbs, ctx) == Ok(es[i]);
    }
    forall i | 0 <= i < |rest| && LastWithKey(rest, i)
      ensures TranslateKey(rest[i].key) in out &&
        ConvertMember(data, rest[i], crumbs, ctx) == Ok((TranslateKey(rest[i].key), out[TranslateKey(rest[i].key)]))
    {
      AssignLast(copy, es, i);
    }
    forall k | k in copy && (forall i :: 0 <= i < |rest| ==> TranslateKey(rest[i].key) != k)
      ensures k in out && out[k] == copy[k]
    {
      AssignKeeps(copy, es, k);
    }
  }

  /** A member is the only one of `data` whose key translates to `key`. */
  ghost predicate SoleMemberFor(data: seq<Member>, i: int, key: string)
    requires 0 <= i < |data|
  {
    TranslateKey(data[i].key) == key &&
    forall j :: 0 <= j < |data| && j != i ==> TranslateKey(data[j].key) != key
  }

  /** `meta` is kept as it is, whatever it holds. */
  lemma ConvertMemberMeta(data: seq<Member>, m: Member, crumbs: seq<Crumb>, ctx: Context)
    requires m.key == "meta"
    ensures ConvertMember(data, m, crumbs, ctx) == Ok(("meta", Plain(m.value)))
  {
  }

  /** A `$ref` string names a node of the context or is kept as it is; a
      list or a mapping cannot be looked up. */
  lemma ConvertMemberRef(data: seq<Member>, m: Member, crumbs: seq<Crumb>, ctx: Context)
    requires m.key == "$ref"
    ensures m.value.JList? || m.value.JObject? ==> ConvertMember(data, m, crumbs, ctx) == Err(UnhashableKey(PathText(crumbs)))
    ensures m.value.JStr? ==>
      ConvertMember(data, m, crumbs, ctx) ==
        Ok(("ref", if m.value.s in ctx then Parsed(ctx[m.value.s]) else Plain(m.value)))
  {
  }

  /** A mapping under `properties` is the properties loop over its members,
      with the parent's `required` (a missing one reads as an empty list). */
  lemma ConvertMemberProperties(data: seq<Member>, m: Member, crumbs: seq<Crumb>, ctx: Context)
    requires m.key == "properties" && m.value.JObject?
    ensures var ps := ConvertProps(Get(data, "required").GetOr(JList([])), m.value.members, crumbs, ctx);
      ConvertMember(data, m, crumbs, ctx) == if ps.Ok? then Ok(("properties", PropsOf(ps.value))) else Err(ps.error)
  {
  }

  /** A mapping under any other key is a nested node, parsed one crumb deeper. */
  lemma ConvertMemberNested(data: seq<Member>, m: Member, crumbs: seq<Crumb>, ctx: Context)
    requires m.key != "meta" && m.key != "$ref" && m.key != "properties" && m.value.JObject?
    ensures var n := ParseNode(m.value.members, crumbs + [KeyCrumb(m.key)], Some(KeyCrumb(m.key)), ctx);
      ConvertMember(data, m, crumbs, ctx) == if n.Ok? then Ok((TranslateKey(m.key), Parsed(n.value))) else Err(n.error)
  {
  }

  /** A list is converted element by element, one crumb deeper; a scalar is
      kept as it is. */
  lemma ConvertMemberOther(data: seq<Member>, m: Member, crumbs: seq<Crumb>, ctx: Context)
    requires m.key != "meta" && m.key != "$ref" && !m.value.JObject?
    ensures m.value.JList? ==>
      var vs := ConvertList(m.value.items, 0, crumbs + [KeyCrumb(m.key)], ctx);
      ConvertMember(data, m, crumbs, ctx) == if vs.Ok? then Ok((TranslateKey(m.key), ListOf(vs.value))) else Err(vs.error)
    ensures !m.value.JList? ==> ConvertMember(data, m, crumbs, ctx) == Ok((TranslateKey(m.key), Plain(m.value)))
  {
  }

  /** The gathered `copy` holds, for the sole member translating to `key`,
      what that member converts to. */
  lemma CopyHoldsSole(data: seq<Member>, crumbs: seq<Crumb>, ctx: Context, i: int, key: string)
    requires 0 <= i < |data| && SoleMemberFor(data, i, key)
    requires CopyFields(data, data, crumbs, ctx, map[]).Ok?
    ensures ConvertMember(data, data[i], crumbs, ctx).Ok?
    ensures var copy := CopyFields(data, data, crumbs, ctx, map[]).value;
      key in copy && ConvertMember(data, data[i], crumbs, ctx) == Ok((key, copy[key]))
  {
    CopyFieldsLast(data, data, crumbs, ctx, map[]);
    assert LastWithKey(data, i);
  }

  /** A node that parsed was built from its gathered copy and its variant. */
  lemma ParseNodeParts(data: seq<Member>, crumbs: seq<Crumb>, crumb: Option<Crumb>, ctx: Context)
    requires ParseNode(data, crumbs, crumb, ctx).Ok?
    ensures CopyFields(data, data, crumbs, ctx, map[]).Ok?
    ensures SelectVariant(Get(data, "type"), crumbs, crumb).Ok?
    ensures var v := SelectVariant(Get(data, "type"), crumbs, crumb).value;
      Build(data, v.0, v.1, CopyFields(data, data, crumbs, ctx, map[]).value) == ParseNode(data, crumbs, crumb, ctx)
  {
  }

  /** The shared fields that are read from the copy without a type check. */
  lemma BaseFromCopy(kind: Kind, copy: Copy)
    requires BuildBase(kind, copy).Ok?
    ensures var b := BuildBase(kind, copy).value;
      && b.ref == ToRef(Lookup(copy, "ref", Plain(JNull)))
      && b.id == Lookup(copy, "id", Plain(JNull))
      && b.schemaUri == Lookup(copy, "schema", Plain(JNull))
      && Some(b.meta) == ToLiteral(Lookup(copy, "meta", Plain(JObject([]))))
  {
  }

  /** Which variant a parsed node is: a missing `type` gives the unknown kind
      with typename `UNKNOWN`, a recognised type string its kind, and any
      other type value the unknown kind keeping that value as typename. */
  lemma VariantOfParsedNode(data: seq<Member>, crumbs: seq<Crumb>, crumb: Option<Crumb>, ctx: Context)
    requires ParseNode(data, crumbs, crumb, ctx).Ok?
    ensures var n := ParseNode(data, crumbs, crumb, ctx).value;
      && (Get(data, "type").None? ==> n.UnknownNode? && n.typename == JStr("UNKNOWN"))
      && (forall s, k :: Get(data, "type") == Some(JStr(s)) && KindFromName(s) == Some(k) ==> n.Kind() == k)
      && (forall t :: Get(data, "type") == Some(t) && !(t.JStr? && KindFromName(t.s).Some?) ==>
            n.UnknownNode? && n.typename == t)
  {
    ParseNodeParts(data, crumbs, crumb, ctx);
  }

  /** A `type` that is present but empty or not a string fails the node with
      its dotted path, unless the node is the value of a property named
      `properties`; a missing `type` never fails. */
  lemma BadTypeRejected(data: seq<Member>, crumbs: seq<Crumb>, crumb: Option<Crumb>, ctx: Context, t: Raw)
    requires CopyFields(data, data, crumbs, ctx, map[]).Ok?
    requires Get(data, "type") == Some(t)
    ensures crumb != Some(KeyCrumb("properties")) && (!t.JStr? || t.s == "") ==>
      ParseNode(data, crumbs, crumb, ctx) == Err(MissingType(PathText(crumbs)))
    ensures crumb == Some(KeyCrumb("properties")) && !t.JList? && !t.JObject? ==>
      SelectVariant(Get(data, "type"), crumbs, crumb) == Ok((if t.JStr? && KindFromName(t.s).Some? then KindFromName(t.s).value else UnknownKind, t))
  {
  }

  /** Construction fails on any member whose translated key the chosen
      variant does not declare; a node that parsed declares all of them. */
  lemma DeclaredKeys(data: seq<Member>, crumbs: seq<Crumb>, crumb: Option<Crumb>, ctx: Context)
    ensures ParseNode(data, crumbs, crumb, ctx).Ok? ==>
      forall i :: 0 <= i < |data| ==> TranslateKey(data[i].key) in FieldsOf(ParseNode(data, crumbs, crumb, ctx).value.Kind())
    ensures
      (&& CopyFields(data, data, crumbs, ctx, map[]).Ok?
       && SelectVariant(Get(data, "type"), crumbs, crumb).Ok?
       && exists i :: 0 <= i < |data| && TranslateKey(data[i].key) !in FieldsOf(SelectVariant(Get(data, "type"), crumbs, crumb).value.0))
      ==>
      (&& ParseNode(data, crumbs, crumb, ctx).Err?
       && ParseNode(data, crumbs, crumb, ctx).error.UnexpectedField?
       && ParseNode(data, crumbs, crumb, ctx).error.className == ClassName(SelectVariant(Get(data, "type"), crumbs, crumb).value.0))
  {
    if ParseNode(data, crumbs, crumb, ctx).Ok? {
      ParseNodeParts(data, crumbs, crumb, ctx);
    }
  }

  /** A `$ref` naming a node of the context stores that very node under
      `ref`; any other name is kept as the string. */
  lemma RefResolution(data: seq<Member>, crumbs: seq<Crumb>, crumb: Option<Crumb>, ctx: Context, i: int)
    requires 0 <= i < |data| && data[i].key == "$ref" && data[i].value.JStr?
    requires SoleMemberFor(data, i, "ref")
    requires ParseNode(data, crumbs, crumb, ctx).Ok?
    ensures var name := data[i].value.s;
      ParseNode(data, crumbs, crumb, ctx).value.base.ref == if name in ctx then RefNode(ctx[name]) else RefName(name)
  {
    ParseNodeParts(data, crumbs, crumb, ctx);
    CopyHoldsSole(data, crumbs, ctx, i, "ref");
    ConvertMemberRef(data, data[i], crumbs, ctx);
    var copy := CopyFields(data, data, crumbs, ctx, map[]).value;
    var v := SelectVariant(Get(data, "type"), crumbs, crumb).value;
    BaseFromCopy(v.0, copy);
  }

  /** `meta` is stored verbatim, without being parsed. */
  lemma MetaVerbatim(data: seq<Member>, crumbs: seq<Crumb>, crumb: Option<Crumb>, ctx: Context, i: int)
    requires 0 <= i < |data| && data[i].key == "meta"
    requires SoleMemberFor(data, i, "meta")
    requires ParseNode(data, crumbs, crumb, ctx).Ok?
    ensures ParseNode(data, crumbs, crumb, ctx).value.base.meta == data[i].value
  {
    ParseNodeParts(data, crumbs, crumb, ctx);
    CopyHoldsSole(data, crumbs, ctx, i, "meta");
    ConvertMemberMeta(data, data[i], crumbs, ctx);
    var copy := CopyFields(data, data, crumbs, ctx, map[]).value;
    var v := SelectVariant(Get(data, "type"), crumbs, crumb).value;
    BaseFromCopy(v.0, copy);
  }

  /** `$id` and `$schema` lose their `$` and keep their scalar value. */
  lemma DollarKeyStripped(data: seq<Member>, crumbs: seq<Crumb>, crumb: Option<Crumb>, ctx: Context, i: int, field: string)
    requires field == "id" || field == "schema"
    requires 0 <= i < |data| && data[i].key == "$" + field
    requires !data[i].value.JList? && !data[i].value.JObject?
    requires SoleMemberFor(data, i, field)
    requires ParseNode(data, crumbs, crumb, ctx).Ok?
    ensures var b := ParseNode(data, crumbs, crumb, ctx).value.base;
      (if field == "id" then b.id else b.schemaUri) == Plain(data[i].value)
  {
    ParseNodeParts(data, crumbs, crumb, ctx);
    CopyHoldsSole(data, crumbs, ctx, i, field);
    ConvertMemberOther(data, data[i], crumbs, ctx);
    var copy := CopyFields(data, data, crumbs, ctx, map[]).value;
    var v := SelectVariant(Get(data, "type"), crumbs, crumb).value;
    BaseFromCopy(v.0, copy);
  }

  /** Only the array variant declares `items`, only the object variant `properties`. */
  lemma DeclaringKinds(k: Kind)
    ensures "items" in FieldsOf(k) <==> k == ArrayKind
    ensures "properties" in FieldsOf(k) <==> k == ObjectKind
  {
  }

  /** The kind of a parsed node declares the translated key of each member. */
  lemma ParsedDeclares(data: seq<Member>, crumbs: seq<Crumb>, crumb: Option<Crumb>, ctx: Context, i: int)
    requires 0 <= i < |data|
    requires ParseNode(data, crumbs, crumb, ctx).Ok?
    ensures TranslateKey(data[i].key) in FieldsOf(ParseNode(data, crumbs, crumb, ctx).value.Kind())
    ensures TranslateKey(data[i].key) in FieldsOf(SelectVariant(Get(data, "type"), crumbs, crumb).value.0)
  {
    DeclaredKeys(data, crumbs, crumb, ctx);
    ParseNodeParts(data, crumbs, crumb, ctx);
  }

  /** A mapping under `items` is parsed as a schema node at path `items`; only
      the array variant declares it. */
  lemma ItemsParsed(data: seq<Member>, crumbs: seq<Crumb>, crumb: Option<Crumb>, ctx: Context, i: int)
    requires 0 <= i < |data| && data[i].key == "items" && data[i].value.JObject?
    requires SoleMemberFor(data, i, "items")
    requires ParseNode(data, crumbs, crumb, ctx).Ok?
    ensures var n := ParseNode(data, crumbs, crumb, ctx).value;
      && n.ArrayNode?
      && ParseNode(data[i].value.members, crumbs + [KeyCrumb("items")], Some(KeyCrumb("items")), ctx).Ok?
      && n.items == Some(SNode(ParseNode(data[i].value.members, crumbs + [KeyCrumb("items")], Some(KeyCrumb("items")), ctx).value))
  {
    ParseNodeParts(data, crumbs, crumb, ctx);
    var copy := CopyFields(data, data, crumbs, ctx, map[]).value;
    var v := SelectVariant(Get(data, "type"), crumbs, crumb).value;
    CopyHoldsSole(data, crumbs, ctx, i, "items");
    ConvertMemberNested(data, data[i], crumbs, ctx);
    assert TranslateKey(data[i].key) == "items";
    ParsedDeclares(data, crumbs, crumb, ctx, i);
    DeclaringKinds(v.0);
    var child := ParseNode(data[i].value.members, crumbs + [KeyCrumb("items")], Some(KeyCrumb("items")), ctx).value;
    assert copy["items"] == Parsed(child);
    assert ItemsField(copy) == Ok(Some(SNode(child)));
  }

  /** A parsed object lists its properties in raw order, each one named after
      its key and marked required exactly when the object's `required` list
      holds the child's key. */
  lemma ObjectProperties(data: seq<Member>, crumbs: seq<Crumb>, crumb: Option<Crumb>, ctx: Context, i: int)
    requires 0 <= i < |data| && data[i].key == "properties" && data[i].value.JObject?
    requires SoleMemberFor(data, i, "properties")
    requires ParseNode(data, crumbs, crumb, ctx).Ok?
    ensures var n := ParseNode(data, crumbs, crumb, ctx).value;
      n.ObjectNode? &&
      ChildrenNamed(Get(data, "required").GetOr(JList([])), data[i].value.members, crumbs, ctx, n.properties)
  {
    var pes := data[i].value.members;
    var requiredKeys := Get(data, "required").GetOr(JList([]));
    ParseNodeParts(data, crumbs, crumb, ctx);
    var copy := CopyFields(data, data, crumbs, ctx, map[]).value;
    var v := SelectVariant(Get(data, "type"), crumbs, crumb).value;
    CopyHoldsSole(data, crumbs, ctx, i, "properties");
    ConvertMemberProperties(data, data[i], crumbs, ctx);
    assert TranslateKey(data[i].key) == "properties";
    ParsedDeclares(data, crumbs, crumb, ctx, i);
    DeclaringKinds(v.0);
    ConvertPropsSpec(requiredKeys, pes, crumbs, ctx);
  }
}
