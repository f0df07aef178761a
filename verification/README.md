# flexschema in Dafny

A model of the core of flexschema, a Python tool that reads JSON-schema-like
documents and generates source code from them. The model covers three parts:

- **The schema model and parser** (`flexschema/schema/schema.py`). The model has:
  - the `ESchemaType` kinds;
  - the `SchemaBase` fields and the eight variants;
  - the derived `key` and `flags`;
  - `parse`, which walks a decoded JSON object.

  `parse` copies `meta` verbatim and resolves `$ref` against a reference
  context. It parses nested mappings and list elements, and strips a leading
  `$` from keys. It names each property after its key and marks it required
  when the parent's `required` list holds the key. It picks the variant from
  `type` and then builds the node.
- **The `Translation` record** (`flexschema/translate/translation.py`).
- **The two backends.**
  - TypeScript (`flexschema/translate/typescript/translate.py`) prints type
    declarations and hoists string enums.
  - mongoengine (`flexschema/translate/mongoengine/translate.py`) prints
    document classes, enum classes and the set of import lines, behind a
    `#<DEPS>` marker.

Modules and files:

| file | module | what it holds |
|---|---|---|
| `results.dfy` | `Results` | `Option` and `Result` |
| `text.dfy` | `Text` | string helpers (`makepad`, `pad_left`, `first_upper`, `str.title`, `str.replace`, `str.join`) |
| `json.dfy` | `Json` | the decoded JSON value and Python's `str` of it |
| `schema.dfy` | `Schema` | the schema model |
| `parser.dfy` | `Parser` | `parse` |
| `parser_props.dfy` | `ParserProps` | properties of `parse` |
| `translation.dfy` | `Translation` | the `Translation` record |
| `typescript.dfy` | `TypeScript` | the TypeScript backend |
| `typescript_props.dfy` | `TypeScriptProps` | properties of the TypeScript backend |
| `mongoengine.dfy` | `Mongoengine` | the mongoengine backend |
| `mongoengine_props.dfy` | `MongoengineProps` | properties of the mongoengine backend |
| `scenarios.dfy` | `Scenarios` | concrete documents parsed and translated |

How the Python is represented:

- Everything is a pure function. The mutable accumulators of the Python
  (`enums`, `classes`, `deps`) are threaded through the recursion explicitly.
- The exceptions Python would raise are `Err` values. In the parser these
  are:
  - an unhashable `$ref` or `type`;
  - a property value that is not a mapping;
  - an unexpected constructor keyword;
  - the `Missing \`type\`` error.

  In the mongoengine backend they are the failed attribute lookups.
- The reference context is a map from names to nodes that the parser only
  reads. A missing context is the empty map.

Behaviour of the code worth knowing, which the model keeps:

- A mapping without `type` is not a parse error. `data.get('type',
  ESchemaType.UNKNOWN)` (schema.py:171) turns it into the unknown variant with
  typename `UNKNOWN` (`Scenarios.UntypedIsUnknown`). Only a `type` that is
  present but empty or not a string fails.
- The `type` check is skipped only for a node whose own crumb is `properties`
  (schema.py:173). A property child is parsed with its property key as
  `crumb`, so only a property that is itself named `properties` is exempt
  (`Scenarios.EmptyTypedProperty`, `Scenarios.EmptyTypedPropertiesKey`).
- The TypeScript backend translates array items at depth 0, whatever the
  array's depth. An object item is therefore printed in its root form, with
  `export type`, inside `Array<…>` (`TypeScriptProps.ArrayOfObjectIsExported`).

## Model

| member | source | states |
|---|---|---|
| `Schema.KindFromName` | flexschema/schema/schema.py:106-115 | the `_mapping` lookup finds a kind exactly when the name is that kind's `ESchemaType` value, and no kind for any other name |
| `Schema.KindNameRoundTrip` | flexschema/schema/schema.py:11-19 | every `ESchemaType` member is found again from its own value, so no two members share a value |
| `Schema.KeyAfterNaming` | flexschema/schema/schema.py:44-46 | `key` is `title or name`: after the parser names a child, a non-empty title still decides the key; otherwise the new name does. Naming changes neither the kind nor the flags |
| `Schema.Flags` | flexschema/schema/schema.py:48-54 | `flags` yields each of `required`, `default` and `unique` exactly when it is not `None`, with its value, in dataclass field order, and no other pair |
| `Parser.TranslateKey` | flexschema/schema/schema.py:133-136 | one leading `$` is removed and nothing else changes; a key without one is kept |
| `Parser.SelectVariant` | flexschema/schema/schema.py:171-181 | a missing `type` reads as `UNKNOWN`. Outside the exemption, `type` fails exactly when it is empty or not a string, with the `Missing \`type\`` error at the node's dotted path. A recognised name selects its kind; any other value selects the unknown kind and is kept as `typename` |
| `Parser.FirstUndeclared` | flexschema/schema/schema.py:183 | finds a translated key the variant's constructor does not take exactly when one exists |
| `Parser.Build` | flexschema/schema/schema.py:183 | construction succeeds exactly when every key is declared and the fields fit. The node has the selected kind, the gathered base fields, the unknown kind's `typename`, the array's `items` and the object's `properties` |
| `Parser.ConvertMember` | flexschema/schema/schema.py:139-168 | each member is stored under its translated key |
| `ParserProps.ConvertMemberMeta` | flexschema/schema/schema.py:140-142 | `meta` is stored as it is, whatever it holds |
| `ParserProps.ConvertMemberRef` | flexschema/schema/schema.py:143-147 | a `$ref` naming a context node stores that node under `ref`. Any other string is kept under `ref`. A list or mapping cannot be looked up and fails |
| `ParserProps.ConvertMemberProperties` | flexschema/schema/schema.py:151-161 | a mapping under `properties` becomes the properties loop over its members, using the parent's `required` (an empty list when absent) |
| `ParserProps.ConvertMemberNested` | flexschema/schema/schema.py:149-150 | a mapping under `items` or any other key is parsed as a node one crumb deeper, with the key as crumb |
| `ParserProps.ConvertMemberOther` | flexschema/schema/schema.py:165-168 | a list is converted element by element one crumb deeper; a scalar is kept as it is |
| `ParserProps.ConvertElementSpec` | flexschema/schema/schema.py:165-166 | a mapping element is parsed at its index; any other element passes through unchanged |
| `ParserProps.ConvertListSpec` | flexschema/schema/schema.py:165-166 | a list keeps its length and order, element by element, and fails exactly when one of its elements does |
| `ParserProps.ChildSpec` | flexschema/schema/schema.py:154-160 | a property child parses exactly when its value is a mapping that parses. It is then named after its property key and marked required exactly when the parent's `required` list holds its key |
| `ParserProps.ConvertPropsSpec` | flexschema/schema/schema.py:151-161 | the properties loop succeeds exactly when every property value parses. The result keeps the raw order, with every child named and marked |
| `ParserProps.CopyFieldsOk` | flexschema/schema/schema.py:139-168 | the member loop fails exactly when some member fails |
| `ParserProps.CopyFieldsEntries` | flexschema/schema/schema.py:139-168 | the gathered `copy` is the dict assignment, in raw order, of what each member converts to |
| `ParserProps.CopyFieldsLast` | flexschema/schema/schema.py:139-168 | after the loop, each translated key holds the value of its last member, and keys no member writes keep their value |
| `ParserProps.AssignKeeps` | flexschema/schema/schema.py:139-168 | a key that no later assignment writes keeps its value |
| `ParserProps.AssignLast` | flexschema/schema/schema.py:139-168 | the last assignment to a key decides its value |
| `ParserProps.CopyHoldsSole` | flexschema/schema/schema.py:139-168 | the only member with a given translated key supplies that key's value in `copy` |
| `ParserProps.ParseNodeParts` | flexschema/schema/schema.py:125-184 | a node that parsed was built from its gathered `copy` and its selected variant |
| `ParserProps.VariantOfParsedNode` | flexschema/schema/schema.py:171-181 | a parsed node's variant: a missing `type` gives unknown with typename `UNKNOWN`, a recognised name gives its kind, and any other value gives unknown keeping that value |
| `ParserProps.BadTypeRejected` | flexschema/schema/schema.py:173-175 | outside the exemption, an empty or non-string `type` fails the node with its dotted path. Under the exemption, any hashable `type` selects a variant |
| `ParserProps.DeclaredKeys` | flexschema/schema/schema.py:183 | every member key of a parsed node is a field of its variant, and an undeclared key fails with that class's unexpected-keyword error |
| `ParserProps.RefResolution` | flexschema/schema/schema.py:143-147 | a `$ref` naming a context entry gives a node whose `ref` is that entry itself, not a re-parsed copy; an unresolved name is kept as the string |
| `ParserProps.MetaVerbatim` | flexschema/schema/schema.py:140-142 | a parsed node's `meta` is the raw value, uninterpreted |
| `ParserProps.DollarKeyStripped` | flexschema/schema/schema.py:133-136 | `$id` and `$schema` are stored as `id` and `schema` with their scalar value |
| `ParserProps.DeclaringKinds` | flexschema/schema/schema.py:57-68 | only the array variant declares `items`, and only the object variant declares `properties` |
| `ParserProps.ParsedDeclares` | flexschema/schema/schema.py:183 | a parsed node's kind declares every translated member key |
| `ParserProps.ItemsParsed` | flexschema/schema/schema.py:149-150 | a mapping under `items` makes the node an array whose `items` is that mapping parsed at path `items` |
| `ParserProps.ObjectProperties` | flexschema/schema/schema.py:151-161 | a parsed node with a `properties` mapping is an object whose properties are, in raw order, the children named and marked by the object's `required` list |
| `Scenarios.MinimalObjectParses` | flexschema/schema/schema.py:119-186 | `{"type":"object","properties":{"a":{"type":"string"}},"required":["a"]}` parses to an object with one string property `a` that is named `a` and has `required` true |
| `Scenarios.UntypedIsUnknown` | flexschema/schema/schema.py:171-181 | `{}` parses to the unknown variant with typename `UNKNOWN` |
| `Scenarios.EmptyTypeAtRoot` | flexschema/schema/schema.py:173-175 | `{"type": ""}` fails at the root with the `Missing \`type\`` error at the empty path |
| `Scenarios.EmptyTypedProperty` | flexschema/schema/schema.py:154 | the same mapping as the value of property `b` fails at path `properties.b` |
| `Scenarios.EmptyTypedPropertiesKey` | flexschema/schema/schema.py:173 | as the value of a property named `properties`, at any path, it is exempt and becomes an unknown node with typename `""` |
| `Translation.NewTranslation` | flexschema/translate/translation.py:4-9 | a translation built from `output` and `extension` has empty `deps` and `head` |
| `Text.MakePad` | flexschema/translate/typescript/translate.py:7-10 | `makepad(x)` is `x` blanks, or nothing when `x` is not positive |
| `Text.RemoveSpaces` | flexschema/translate/typescript/translate.py:41 | `replace(' ', '')` leaves no blank, keeps every other character, and changes nothing in a string without blanks |
| `Text.RemoveSpacesAppend` | flexschema/translate/typescript/translate.py:41 | `replace(' ', '')` works piece by piece: on a concatenation it is the concatenation of the results, so the kept characters stay in order |
| `Text.RemoveSpacesJoins` | flexschema/translate/mongoengine/translate.py:53 | a blank between two strings is dropped and the two sides are joined |
| `Text.FirstUpper` | flexschema/translate/mongoengine/translate.py:15-18 | `first_upper` upper-cases the first character, keeps the rest, and leaves `""` alone |
| `Text.FirstUpperIdempotent` | flexschema/translate/mongoengine/translate.py:15-18 | applying `first_upper` twice is the same as applying it once |
| `Text.TitleIdempotent` | flexschema/translate/typescript/translate.py:20 | `str.title` keeps the length, and title-casing a title-cased name changes nothing |
| `Text.JoinAppend` | flexschema/translate/typescript/translate.py:75 | joining one more string adds the separator and that string at the end |
| `TypeScript.EnumMembers` | flexschema/translate/typescript/translate.py:24 | one member line per enum value, in order, each `  v = "v"` |
| `TypeScript.TransSchema` | flexschema/translate/typescript/translate.py:29-68 | translating never drops a collected enum |
| `TypeScript.Translate` | flexschema/translate/typescript/translate.py:71-81 | the result has extension `.ts`, no deps and no head, and starts with the root's text |
| `TypeScriptProps.SchemaThreads` | flexschema/translate/typescript/translate.py:16-27 | translating appends exactly the schema's hoisted enums, in discovery order, to what was collected; the text does not depend on what was collected before |
| `TypeScriptProps.NodeThreads` | flexschema/translate/typescript/translate.py:39-64 | the same for one node |
| `TypeScriptProps.PropsThreads` | flexschema/translate/typescript/translate.py:43-48 | the same for an object's properties |
| `TypeScriptProps.ListThreads` | flexschema/translate/typescript/translate.py:32-34 | the same for a list |
| `TypeScriptProps.EntriesThreads` | flexschema/translate/typescript/translate.py:35-38 | the same for a mapping |
| `TypeScriptProps.PropsText` | flexschema/translate/typescript/translate.py:43-48 | an object body is its property lines concatenated in property order, each child translated one level deeper |
| `TypeScriptProps.ObjectRendering` | flexschema/translate/typescript/translate.py:39-49 | a root object is `export type <Name> = {` … `};`, and a nested one is `{` … `}` with the brace indented two blanks per level |
| `TypeScriptProps.ObjectNameSpec` | flexschema/translate/typescript/translate.py:40-41 | the type name is `SomeObject` when there is no key, never holds a blank, and is the key with its blanks removed: a key without blanks is the name itself, and `a b` gives the names of `a` and `b` joined, so `my doc` gives `mydoc` |
| `TypeScriptProps.PropertyLineShape` | flexschema/translate/typescript/translate.py:45-48 | a property line is the indentation, the key, a `?` exactly when the child's `required` is not truthy, the type, and then `;` and a newline |
| `TypeScriptProps.LeafRendering` | flexschema/translate/typescript/translate.py:50-64 | numbers render as `number`, a string without values as `string`, unknown as `unknown`, and booleans and nulls as nothing. Each is an if-and-only-if, and none of them hoists anything |
| `TypeScriptProps.StringEnum` | flexschema/translate/typescript/translate.py:52-55 | a string with values renders as `E` plus its title-cased key (or `_unknown_`) and hoists exactly that enum's declaration |
| `TypeScriptProps.EnumDeclShape` | flexschema/translate/typescript/translate.py:19-27 | the enum declaration is its header, one member line per value separated by `,\n`, and `};`. A title-cased name gives the same declaration |
| `TypeScriptProps.ArrayRendering` | flexschema/translate/typescript/translate.py:58-62 | truthy items render inside `Array<…>`, translated at depth 0; otherwise the result is `Array<any>` with nothing hoisted |
| `TypeScriptProps.RootObjectOpens` | flexschema/translate/typescript/translate.py:42 | a root object's text begins with `export type ` |
| `TypeScriptProps.ArrayOfObjectIsExported` | flexschema/translate/typescript/translate.py:60 | an array of an object prints `Array<export type …`, at any depth |
| `TypeScriptProps.ListText` | flexschema/translate/typescript/translate.py:32-34 | a list renders as its elements' translations, one level deeper, in order |
| `TypeScriptProps.EntriesText` | flexschema/translate/typescript/translate.py:35-38 | a mapping renders as its values' translations, one level deeper, in order |
| `TypeScriptProps.TranslateOutput` | flexschema/translate/typescript/translate.py:71-77 | the output is the root's text when nothing was hoisted, and otherwise the root's text, a newline and the hoisted declarations one per line |
| `Mongoengine.ShownFlags` | flexschema/translate/mongoengine/translate.py:109 | every shown text is the `name=value` text of a flag that is not `False`, and when no flag is `False` all of them are shown |
| `Mongoengine.EnumLines` | flexschema/translate/mongoengine/translate.py:46 | one line per enum value, in order, each `    v = "v"` |
| `Mongoengine.ArgTexts` | flexschema/translate/mongoengine/translate.py:55 | one `k=v` text per base-class argument, in order, with the value printed as `str` prints it |
| `Mongoengine.BaseClassArgs` | flexschema/translate/mongoengine/translate.py:54-55 | a `meta` that is not a mapping fails the `get` lookup; absent or empty `baseclass_args` give no arguments; a mapping gives its `k=v` texts joined by `,`; any other value fails the `items` lookup |
| `Mongoengine.TransSchema` | flexschema/translate/mongoengine/translate.py:112-166 | the accumulators only grow. Under the intended reading, no failure is the missing `DATE` |
| `Mongoengine.Fallback` | flexschema/translate/mongoengine/translate.py:157-166 | the tail of `trans` fails exactly when `ESchemaType.DATE` raises |
| `Mongoengine.TranslateWith` | flexschema/translate/mongoengine/translate.py:20-29 | a translation has extension `.py`, head `# pyright: basic`, an output that starts with `#<DEPS>`, and the initial import lines among its deps |
| `Mongoengine.Translate` | flexschema/translate/mongoengine/translate.py:186-187 | under the intended reading, translation never fails on `ESchemaType.DATE` |
| `MongoengineProps.SchemaAppends` | flexschema/translate/mongoengine/translate.py:20-23 | the accumulators are threaded purely: translating from any accumulators appends to them exactly what translating from empty ones collects, and returns the same text |
| `MongoengineProps.NodeAppends` | flexschema/translate/mongoengine/translate.py:124-166 | the same for one node |
| `MongoengineProps.ListAppends` | flexschema/translate/mongoengine/translate.py:115-118 | the same for a list |
| `MongoengineProps.EntriesAppends` | flexschema/translate/mongoengine/translate.py:119-123 | the same for a mapping |
| `MongoengineProps.ClassAppends` | flexschema/translate/mongoengine/translate.py:50-99 | the same for `make_class` |
| `MongoengineProps.FieldsAppend` | flexschema/translate/mongoengine/translate.py:59-97 | the same for the property loop of `make_class` |
| `MongoengineProps.ShownFlagsAppend` | flexschema/translate/mongoengine/translate.py:109 | filtering the flags distributes over concatenation |
| `MongoengineProps.ShownGroup` | flexschema/translate/mongoengine/translate.py:109 | one flag is shown unless it is `None` or `False` |
| `MongoengineProps.GetFlagsSpec` | flexschema/translate/mongoengine/translate.py:101-110 | `get_flags` prints `required`, `default` and `unique` in that order, leaving out each one that is `None` or `False` |
| `MongoengineProps.FlagQuoting` | flexschema/translate/mongoengine/translate.py:105-109 | a string flag value is printed in single quotes, and any other value as Python's `str` shows it |
| `MongoengineProps.RefFirst` | flexschema/translate/mongoengine/translate.py:124-129 | a non-empty `ref` name, or a `ref` node without enum values, renders as a `ReferenceField` to it and adds that import, whatever the kind |
| `MongoengineProps.TypeMapping` | flexschema/translate/mongoengine/translate.py:133-150 | integers, floats and strings without values become `IntField`, `FloatField` and `StringField` of their flags, each adding its import |
| `MongoengineProps.EnumStringHoists` | flexschema/translate/mongoengine/translate.py:141-146 | a string with values hoists its enum class and imports `StrEnum`, but does not import `StringField` |
| `MongoengineProps.EnumDeclShape` | flexschema/translate/mongoengine/translate.py:42-48 | an enum class is `class E<Key>(StrEnum):` followed by one line per value; an empty key gives the name `E` |
| `MongoengineProps.ArrayMapping` | flexschema/translate/mongoengine/translate.py:151-156 | an array adds the `ListField` import and wraps its truthy items, or is `ListField()` |
| `MongoengineProps.CorrectedFallback` | flexschema/translate/mongoengine/translate.py:157-166 | under the intended reading, an unknown node with typename `file` is a `FileField`, and other booleans, nulls and unknown nodes render as `?` |
| `MongoengineProps.AsWrittenDateRaises` | flexschema/translate/mongoengine/translate.py:157 | as the code stands, every boolean, null or unknown node without a rendered `ref` aborts on `ESchemaType.DATE` |
| `MongoengineProps.AsWrittenPropertyRaises` | flexschema/translate/mongoengine/translate.py:77-84 | as the code stands, a class aborts at its first property whose kind is not unknown |
| `MongoengineProps.FieldMarkSpec` | flexschema/translate/mongoengine/translate.py:61-94 | the property annotation: a `ref` decides first, then the kind (object, array, Python type or `Any`), then an unknown typename. An object field becomes a `ReferenceField` |
| `MongoengineProps.ListMark` | flexschema/translate/mongoengine/translate.py:67-71 | an array annotation names the Python type of its node items, or `Any` |
| `MongoengineProps.ClassFieldsLines` | flexschema/translate/mongoengine/translate.py:59-97 | a class body is one line per property, in order, and succeeds exactly when every line does |
| `MongoengineProps.ClassRendering` | flexschema/translate/mongoengine/translate.py:50-99 | an object becomes a class named after its key: `trans` returns the name and appends the class, header first, after those of its nested objects |
| `MongoengineProps.ArgsSuffix` | flexschema/translate/mongoengine/translate.py:55-56 | the header gets its `(…)` suffix exactly when `baseclass_args` has an entry, and the suffix starts with the first entry's `k=v` |
| `MongoengineProps.MarkIgnoresText` | flexschema/translate/mongoengine/translate.py:61-95 | whether a property's annotation stays `:Any`, and whether it can be computed at all, does not depend on the field text `trans` returned |
| `MongoengineProps.FieldImports` | flexschema/translate/mongoengine/translate.py:59-97 | the property loop imports `ReferenceField` for every object property and `typing.Any` for every property whose annotation stays `:Any` |
| `MongoengineProps.ClassImports` | flexschema/translate/mongoengine/translate.py:59-98 | an object that becomes a class carries the `ReferenceField` import when a property is an object, and the `typing.Any` import when a property keeps the `:Any` annotation |
| `MongoengineProps.DocumentNameSpec` | flexschema/translate/mongoengine/translate.py:52-53 | the class name is `SomeObject` without a key, and otherwise the key with its blanks removed and its first letter upper-cased: `a b` gives `a` and `b` joined, so `my doc` gives `Mydoc` |
| `MongoengineProps.TranslateDeps` | flexschema/translate/mongoengine/translate.py:20-29 | the import lines are the initial ones plus those the walk collects; every extra line is present, and so is the `Document` import for the default base class |
| `MongoengineProps.OutputAssembly` | flexschema/translate/mongoengine/translate.py:170-183 | the output is the marker, then the enum classes when there are any, then the classes when there are any |
| `MongoengineProps.LeafRootOutput` | flexschema/translate/mongoengine/translate.py:170-183 | a root that hoists nothing and makes no class gives the bare marker `#<DEPS>` |
| `MongoengineProps.SchemaAgrees` | flexschema/translate/mongoengine/translate.py:112-166 | the intended reading changes only the runs that abort: whenever the code as written succeeds, both give the same result |
| `MongoengineProps.NodeAgrees` | flexschema/translate/mongoengine/translate.py:124-166 | the same for one node |
| `MongoengineProps.ClassAgrees` | flexschema/translate/mongoengine/translate.py:50-99 | the same for `make_class` |
| `MongoengineProps.FieldsAgree` | flexschema/translate/mongoengine/translate.py:59-97 | the same for the property loop |
| `MongoengineProps.ListAgrees` | flexschema/translate/mongoengine/translate.py:115-118 | the same for a list |
| `MongoengineProps.EntriesAgrees` | flexschema/translate/mongoengine/translate.py:119-123 | the same for a mapping |
| `MongoengineProps.AsWrittenAgrees` | flexschema/translate/mongoengine/translate.py:186-187 | whenever `translate` as written succeeds, the corrected `translate` gives the same translation |
| `Scenarios.PlainDocumentDate` | flexschema/translate/mongoengine/translate.py:83 | a document with one integer field aborts as written, and translates under the intended reading |

## Left out

- Floating-point JSON numbers: the decoded value has integers only, so `FloatNode` bounds and float flag values are not modelled.
- `Parser.BuildBase`: Python's dataclass constructors store any value unchecked, but the model fails with `FieldTypeMismatch` on these values: anything but a string or null under `title` or `name`; anything but a list of plain values under `enum`; a parsed node, a property mapping, or a list holding one, under `required`, `default`, `unique` or `meta`; anything but a property mapping under `properties`; and anything but null, a node, or a list or mapping of nodes under `items`. For example `{"type": "string", "default": {"type": "string"}}` is accepted by Python, with the nested node as `default`, and fails in the model, although `default` is annotated `Any | None`. The model does not check the `bool` annotation of `required` and `unique`: any plain value is accepted there, as in Python. The rejections keep the backends' inputs plain data.
- Reference-context values that are not schema nodes: the context maps names to nodes only.
- Duplicate keys in a JSON text: a decoded object is taken to have distinct keys, and `Json.Get` reads the first member with a key.
- Python's `repr` escaping of quotes and backslashes inside strings in lists and dicts: `PyStr` quotes without escaping.
- Case mapping beyond ASCII letters in `first_upper` and `str.title`.
- The `depth` argument of the mongoengine `trans`: it reaches no output.
- `ESchemaType.DATE` has no member, so the `DateTimeField` branch of the mongoengine `trans` is unreachable in both readings and is not modelled.
- Reference cycles: a `ref` holds an already-built node, so a tree is finite by construction.
- The command line (`flexschema/cli/bin.py`): file I/O, merging translations into files, and substituting the `#<DEPS>` marker.
- `Mongoengine.TranslateAsWritten`: no contract of its own. Its behaviour is stated by `MongoengineProps.AsWrittenDateRaises`, `MongoengineProps.AsWrittenPropertyRaises`, `MongoengineProps.AsWrittenAgrees` and `Scenarios.PlainDocumentDate`.

## Findings

| source | as written | input that shows it | evidently intended | confidence | as-written member | corrected member |
|---|---|---|---|---|---|---|
| flexschema/translate/mongoengine/translate.py:83 | `v.type == ESchemaType.DATE` reads a member the enum does not declare. The lookup raises `AttributeError` for every property whose kind is not unknown. The same lookup at line 157 raises for every boolean and null node, and for every unknown node, before the `file` check | a document `Plain` with one integer property `n` | `DATE` compares false: the mark stays as computed, booleans and nulls render `?`, and an unknown node with typename `file` renders `FileField()` | not executed | `MongoengineProps.AsWrittenDateRaises` | `Mongoengine.Translate` |
