/** The recursive schema describer of the Swagger 2.0 directive:
    `make_schema`, `make_object` and the properties table `make_properties`
    builds for them.

    A schema with a `$ref` becomes a link to the referenced name and is
    never expanded, so the describer only ever recurses into values stored
    inside the schema it was given (`items`, the values of `properties`),
    and it terminates on every finite document, cyclic references or not. */
module SchemaDescriber {
  import opened Outcomes
  import opened PyJson
  import opened DocTree

  const ResponsesPrefix := "#/responses/"
  const DefinitionsPrefix := "#/definitions/"

  /** What `make_object` returns: a single node, or the two-node list
      (heading and table) of `make_properties`. */
  datatype Described = One(node: Node) | Many(nodes: seq<Node>)

  /** `core += described`: a node is appended, a list is spliced in. */
  function Children(d: Described): seq<Node>
  {
    match d
    case One(n) => [n]
    case Many(ns) => ns
  }

  /** How `make_properties` puts a described type into its Type cell: a
      `Text` node counts as a string, another node goes in as it is, and a
      list cannot be adopted by the table entry. */
  function DescribedCell(d: Described): Cell
  {
    match d
    case One(n) => if n.Text? then CText(n.text) else CNode(n)
    case Many(_) => CBad
  }

  /** The name a `$ref` links to: the reference with every occurrence of
      the matching prefix removed (`str.replace`). A reference that is not a
      string has no `startswith` (AttributeError); one with neither prefix
      leaves `nref` unassigned, and reading it raises UnboundLocalError, so
      the `"THIS_IS_NOT_RIGHT"` placeholder can never be produced. */
  function RefTarget(ref: Json): (r: Outcome<string>)
    ensures r.Ok? <==> ref.Str? && (StartsWith(ref.s, ResponsesPrefix) || StartsWith(ref.s, DefinitionsPrefix))
  {
    if !ref.Str? then Raised
    else if StartsWith(ref.s, ResponsesPrefix) then Ok(RemoveAll(ref.s, ResponsesPrefix))
    else if StartsWith(ref.s, DefinitionsPrefix) then Ok(RemoveAll(ref.s, DefinitionsPrefix))
    else Raised
  }

  /** A paragraph holding one internal reference to the target, captioned
      with the name followed by the target. */
  function RefParagraph(name: string, ref: Json): Outcome<Node>
  {
    var nref :- RefTarget(ref);
    Ok(Paragraph([Reference(nref, name + nref)]))
  }

  /** `make_object(name, schema)`. */
  function MakeObject(name: string, schema: Json): Outcome<Described>
    decreases Size(schema), 1
  {
    var ref :- Get(schema, "$ref");
    if ref != Null then
      var p :- RefParagraph(name, ref);
      Ok(One(p))
    else
      var t :- Get(schema, "type");
      if t == Str("boolean") || t == Str("string") || t == Str("integer") then
        Ok(One(Text(name + t.s)))
      else if t == Str("array") then
        var items :- Get(schema, "items");
        if items != Null then
          var n :- MakeSchema(name + "array of ", items);
          Ok(One(n))
        else
          Ok(One(Text("array of UNKNOWN type")))
      else if t == Str("object") then
        var props :- Get(schema, "properties");
        if props != Null then
          // `schema.get('properties', {})` is `props` again: the key is present.
          var required :- GetOr(schema, "required", Arr([]));
          var block :- PropertiesTable(props, required);
          Ok(Many(block))
        else
          var extra :- Get(schema, "additionalProperties");
          if extra != Null then
            var valueType :- GetOr(extra, "type", Str("Unknown"));
            if valueType.Str? then Ok(One(Text(name + " map of strings to " + valueType.s)))
            else Raised
          else
            Ok(One(Text(name + "Raw Octet Stream")))
      else if t == Null then
        Ok(One(Text(name + "No Data Returned")))
      else
        Ok(One(Text(name + "UNKNOWN type (3) - " + PyStr(schema))))
  }

  /** `make_schema(name, schema)`: a reference paragraph, or a paragraph
      holding what `make_object` describes. */
  function MakeSchema(name: string, schema: Json): Outcome<Node>
    decreases Size(schema), 4
  {
    var ref :- Get(schema, "$ref");
    if ref != Null then RefParagraph(name, ref)
    else
      var d :- MakeObject(name, schema);
      Ok(Paragraph(Children(d)))
  }

  /** `make_properties(properties, required)` as the describer uses it:
      a bold "Fields" heading and a Name/Description/Type table. Only a
      dict has `items()`. */
  function PropertiesTable(properties: Json, required: Json): Outcome<seq<Node>>
    decreases Size(properties), 4
  {
    if !properties.Obj? then Raised
    else
      var rows :- PropertyRows(properties.fields, required);
      var table :- CreateTable(["Name", "Description", "Type"], rows);
      Ok([Paragraph([Strong("Fields")]), table])
  }

  /** The rows of the properties table, in property order. */
  function PropertyRows(fields: seq<Member>, required: Json): Outcome<seq<seq<Cell>>>
    decreases SizeFields(fields), 3
  {
    if fields == [] then Ok([])
    else
      var init :- PropertyRows(fields[..|fields| - 1], required);
      var last :- PropertyRow(fields[|fields| - 1], required);
      Ok(init + [last])
  }

  /** One property's row. `name in required` follows Python's `in`, and a
      missing description reads as the empty string. */
  function PropertyRow(property: Member, required: Json): Outcome<seq<Cell>>
    decreases Size(property.val), 2
  {
    var isRequired :- Contains(required, property.key);
    var description :- GetOr(property.val, "description", Str(""));
    var d :- MakeObject("", property.val);
    Ok([CText(if isRequired then property.key + "*" else property.key), JsonCell(description), DescribedCell(d)])
  }

  /** The displayed name of a row: a trailing `*` marks a required one. */
  function Marked(name: string, required: bool): string
  {
    if required then name + "*" else name
  }

  /** A property's description as its row shows it. */
  function DescriptionText(property: Json): string
  {
    if property.Obj? && HasKey(property.fields, "description") && Field(property, "description").Str?
    then Field(property, "description").s
    else ""
  }

  /** `make_schema` on a schema without `$ref` wraps what `make_object`
      describes in one paragraph, splicing in a properties block. */
  lemma SchemaWrapsObject(name: string, s: Json)
    requires s.Obj? && Field(s, "$ref") == Null
    ensures MakeSchema(name, s).Ok? <==> MakeObject(name, s).Ok?
    ensures MakeSchema(name, s).Ok? ==> MakeSchema(name, s).value == Paragraph(Children(MakeObject(name, s).value))
  {
  }

  /** A primitive type is described by the label followed by the type. */
  lemma PrimitiveType(name: string, s: Json)
    requires s.Obj? && Field(s, "$ref") == Null
    requires Field(s, "type") in [Str("boolean"), Str("string"), Str("integer")]
    ensures MakeObject(name, s) == Ok(One(Text(name + Field(s, "type").s)))
  {
  }

  /** An array with `items` describes its items under the label extended
      by "array of "; without `items` the label is dropped. */
  lemma ArrayType(name: string, s: Json)
    requires s.Obj? && Field(s, "$ref") == Null && Field(s, "type") == Str("array")
    ensures Field(s, "items") == Null ==> MakeObject(name, s) == Ok(One(Text("array of UNKNOWN type")))
    ensures Field(s, "items") != Null ==>
              MakeObject(name, s) ==
                match MakeSchema(name + "array of ", Field(s, "items"))
                case Ok(n) => Ok(One(n))
                case Raised => Raised
  {
  }

  /** An object with `properties` is described by its properties table
      alone: the label is dropped, and a missing `required` reads as the
      empty list. */
  lemma ObjectType(name: string, s: Json)
    requires s.Obj? && Field(s, "$ref") == Null && Field(s, "type") == Str("object")
    requires Field(s, "properties") != Null
    ensures MakeObject(name, s) ==
              match PropertiesTable(Field(s, "properties"), if HasKey(s.fields, "required") then Field(s, "required") else Arr([]))
              case Ok(block) => Ok(Many(block))
              case Raised => Raised
  {
  }

  /** An object with only `additionalProperties` is a map whose value type
      is named by that dict's `type`, or "Unknown"; with neither it is a
      raw octet stream. */
  lemma MapType(name: string, s: Json)
    requires s.Obj? && Field(s, "$ref") == Null && Field(s, "type") == Str("object")
    requires Field(s, "properties") == Null
    ensures var extra := Field(s, "additionalProperties");
            extra == Null ==> MakeObject(name, s) == Ok(One(Text(name + "Raw Octet Stream")))
    ensures var extra := Field(s, "additionalProperties");
            extra.Obj? && !HasKey(extra.fields, "type") ==>
              MakeObject(name, s) == Ok(One(Text(name + " map of strings to Unknown")))
    ensures var extra := Field(s, "additionalProperties");
            extra.Obj? && Field(extra, "type").Str? ==>
              MakeObject(name, s) == Ok(One(Text(name + " map of strings to " + Field(extra, "type").s)))
    ensures var extra := Field(s, "additionalProperties");
            extra != Null && (!extra.Obj? || (HasKey(extra.fields, "type") && !Field(extra, "type").Str?)) ==>
              MakeObject(name, s) == Raised
  {
    assert name + " map of strings to " + "Unknown" == name + " map of strings to Unknown";
  }

  /** No type at all, and a type the describer does not know. */
  lemma OtherType(name: string, s: Json)
    requires s.Obj? && Field(s, "$ref") == Null
    ensures Field(s, "type") == Null ==> MakeObject(name, s) == Ok(One(Text(name + "No Data Returned")))
    ensures Field(s, "type") !in [Null, Str("boolean"), Str("string"), Str("integer"), Str("array"), Str("object")] ==>
              MakeObject(name, s) == Ok(One(Text(name + "UNKNOWN type (3) - " + Repr(s))))
  {
  }

  /** The rows are the properties' rows, all or nothing, in property
      order: `PropertyRows` is `MapAll` of `PropertyRow`. */
  lemma {:induction false} PropertyRowsAreMapAll(fields: seq<Member>, required: Json)
    ensures PropertyRows(fields, required) == MapAll(m => PropertyRow(m, required), fields)
  {
    if fields != [] {
      PropertyRowsAreMapAll(fields[..|fields| - 1], required);
    }
  }

  /** The rows are built exactly when every property's row is, one row
      per property in property order. */
  lemma PropertyRowsOk(fields: seq<Member>, required: Json)
    ensures PropertyRows(fields, required).Ok? <==>
              forall i :: 0 <= i < |fields| ==> PropertyRow(fields[i], required).Ok?
    ensures PropertyRows(fields, required).Ok? ==>
              |PropertyRows(fields, required).value| == |fields| &&
              forall i :: 0 <= i < |fields| ==>
                PropertyRows(fields, required).value[i] == PropertyRow(fields[i], required).value
  {
    var f := m => PropertyRow(m, required);
    PropertyRowsAreMapAll(fields, required);
    MapAllOk(f, fields);
  }

  /** The properties table has one row per property, in order. A row's
      name carries the `*` marker exactly when `name in required` holds,
      and its description is the property's, or empty when it has none. */
  lemma RequiredMarkers(fields: seq<Member>, required: Json)
    requires PropertiesTable(Obj(fields), required).Ok?
    ensures var block := PropertiesTable(Obj(fields), required).value;
            |block| == 2 && block[0] == Paragraph([Strong("Fields")]) && block[1].Table? &&
            |block[1].body| == |fields| &&
            forall i :: 0 <= i < |fields| ==>
              |block[1].body[i]| == 3 &&
              Contains(required, fields[i].key).Ok? &&
              block[1].body[i][0] ==
                Entry([TextParagraph(Marked(fields[i].key, Contains(required, fields[i].key).value))]) &&
              block[1].body[i][1] == Entry([TextParagraph(DescriptionText(fields[i].val))])
  {
    PropertyRowsOk(fields, required);
    var rows := PropertyRows(fields, required).value;
    var table := CreateTable(["Name", "Description", "Type"], rows).value;
    forall i | 0 <= i < |fields|
      ensures |table.body[i]| == 3
      ensures Contains(required, fields[i].key).Ok?
      ensures table.body[i][0] == Entry([TextParagraph(Marked(fields[i].key, Contains(required, fields[i].key).value))])
      ensures table.body[i][1] == Entry([TextParagraph(DescriptionText(fields[i].val))])
    {
      var row := PropertyRow(fields[i], required).value;
      assert rows[i] == row;
      assert Ok(table.body[i][0]) == CellNode(row[0]);
      assert Ok(table.body[i][1]) == CellNode(row[1]);
    }
  }

  /** With the usual list of required names, the marker goes on exactly
      the properties named in the list. */
  lemma RequiredListMarkers(fields: seq<Member>, names: seq<Json>, i: nat)
    requires PropertiesTable(Obj(fields), Arr(names)).Ok?
    requires i < |fields|
    ensures var table := PropertiesTable(Obj(fields), Arr(names)).value[1];
            |table.body| == |fields| && |table.body[i]| == 3 &&
            table.body[i][0] == Entry([TextParagraph(Marked(fields[i].key, Str(fields[i].key) in names))])
  {
    RequiredMarkers(fields, Arr(names));
  }

  /** Schemas the describer renders without raising: dicts throughout,
      references with one of the two known prefixes, an `additionalProperties`
      that is a dict naming its value type by a string (or not at all), a
      `required` Python can test membership in, descriptions that are
      strings, and no property that is itself an inline object with
      `properties` (its two-node table cannot sit in a table cell). */
  ghost predicate Describable(s: Json)
    decreases Size(s), 1
  {
    s.Obj? &&
    var ref := Field(s, "$ref");
    if ref != Null then
      ref.Str? && (StartsWith(ref.s, ResponsesPrefix) || StartsWith(ref.s, DefinitionsPrefix))
    else
      var t := Field(s, "type");
      if t == Str("array") then
        Field(s, "items") == Null || Describable(Field(s, "items"))
      else if t == Str("object") then
        var props := Field(s, "properties");
        if props != Null then
          props.Obj? && (props.fields == [] || MembershipTestable(s)) && DescribableProperties(props.fields)
        else
          var extra := Field(s, "additionalProperties");
          extra == Null || (extra.Obj? && (!HasKey(extra.fields, "type") || Field(extra, "type").Str?))
      else true
  }

  /** `name in schema.get('required', [])` does not raise. */
  ghost predicate MembershipTestable(s: Json)
    requires s.Obj?
  {
    var r := Field(s, "required");
    !HasKey(s.fields, "required") || r.Arr? || r.Obj? || r.Str?
  }

  ghost predicate DescribableProperties(fields: seq<Member>)
    decreases SizeFields(fields), 3
  {
    fields == [] ||
    (DescribableProperties(fields[..|fields| - 1]) && DescribableProperty(fields[|fields| - 1].val))
  }

  ghost predicate InlineProperties(v: Json)
  {
    Field(v, "$ref") == Null && Field(v, "type") == Str("object") && Field(v, "properties") != Null
  }

  ghost predicate DescribableProperty(v: Json)
    decreases Size(v), 2
  {
    Describable(v) &&
    (!HasKey(v.fields, "description") || Field(v, "description").Str?) &&
    !InlineProperties(v)
  }

  /** Only a properties table is described by a list of nodes. */
  lemma ManyOnlyForProperties(name: string, s: Json)
    requires MakeObject(name, s).Ok? && MakeObject(name, s).value.Many?
    ensures InlineProperties(s)
  {
  }

  /** The describer never raises on a describable schema: missing optional
      fields (`type`, `items`, `required`, `description`) are never an
      error. */
  lemma {:induction false} DescribableNeverRaises(name: string, s: Json)
    requires Describable(s)
    ensures MakeObject(name, s).Ok? && MakeSchema(name, s).Ok?
    decreases Size(s), 1
  {
    var ref := Field(s, "$ref");
    if ref == Null {
      var t := Field(s, "type");
      if t == Str("array") {
        var items := Field(s, "items");
        if items != Null {
          DescribableNeverRaises(name + "array of ", items);
        }
      } else if t == Str("object") {
        var props := Field(s, "properties");
        if props != Null {
          var required := GetOr(s, "required", Arr([])).value;
          RowsNeverRaise(props.fields, required);
        }
      }
    }
  }

  lemma {:induction false} RowsNeverRaise(fields: seq<Member>, required: Json)
    requires DescribableProperties(fields)
    requires fields == [] || required.Arr? || required.Obj? || required.Str?
    ensures PropertyRows(fields, required).Ok?
    ensures forall i, j :: 0 <= i < |PropertyRows(fields, required).value| &&
                           0 <= j < |PropertyRows(fields, required).value[i]| ==>
                           !PropertyRows(fields, required).value[i][j].CBad?
    decreases SizeFields(fields), 3
  {
    if fields != [] {
      var init := fields[..|fields| - 1];
      var last := fields[|fields| - 1];
      RowsNeverRaise(init, required);
      DescribableNeverRaises("", last.val);
      var d := MakeObject("", last.val).value;
      if d.Many? {
        ManyOnlyForProperties("", last.val);
      }
      var row := PropertyRow(last, required).value;
      assert !row[1].CBad? && !row[2].CBad?;
    }
  }

  /** `$ref` siblings are ignored and the target is never expanded: a
      reference to `prefix + name` links to `name`, captioned with the
      name, whatever else the schema holds and whether or not `name` is
      defined anywhere. */
  lemma RefLinks(name: string, s: Json, prefix: string, target: string)
    requires prefix == ResponsesPrefix || prefix == DefinitionsPrefix
    requires s.Obj? && Field(s, "$ref") == Str(prefix + target)
    requires !IsSubstring(prefix, target)
    ensures MakeSchema(name, s) == Ok(Paragraph([Reference(target, name + target)]))
    ensures MakeObject(name, s) == Ok(One(Paragraph([Reference(target, name + target)])))
  {
    RemoveAllPrefix(prefix, target);
    assert StartsWith(prefix + target, prefix);
    if prefix == DefinitionsPrefix {
      assert (prefix + target)[..|ResponsesPrefix|] != ResponsesPrefix by {
        assert (prefix + target)[..|ResponsesPrefix|][2] == 'd';
      }
    }
  }

  /** A reference outside `#/responses/` and `#/definitions/` (an external
      file, say) raises instead of producing a placeholder. */
  lemma ForeignRefRaises(name: string, s: Json)
    requires s.Obj? && Field(s, "$ref").Str?
    requires !StartsWith(Field(s, "$ref").s, ResponsesPrefix)
    requires !StartsWith(Field(s, "$ref").s, DefinitionsPrefix)
    ensures MakeSchema(name, s) == Raised && MakeObject(name, s) == Raised
  {
  }

  /** `str.replace` removes every occurrence of the prefix, not only the
      leading one: `#/definitions/A#/definitions/B` links to `AB`. */
  lemma EveryOccurrenceRemoved(a: string, b: string)
    requires forall i :: 0 <= i < |a| ==> a[i] != '#'
    requires forall i :: 0 <= i < |b| ==> b[i] != '#'
    ensures RefTarget(Str(DefinitionsPrefix + a + DefinitionsPrefix + b)) == Ok(a + b)
  {
    var p := DefinitionsPrefix;
    assert p[0] == '#';
    var s := p + a + p + b;
    assert StartsWith(s, p) by { assert s[..|p|] == p; }
    assert !StartsWith(s, ResponsesPrefix) by { assert s[..|ResponsesPrefix|][2] == 'd'; }
    assert s[..|p|] == p && s[|p|..] == a + (p + b);
    RemoveAllSkip(a, p + b, p);
    LeadAbsent(p, b);
    RemoveAllPrefix(p, b);
  }

  /** A schema of `depth` nested arrays around the primitive type `t`. */
  function ArrayOf(depth: nat, t: string): Json
  {
    if depth == 0 then Obj([Member("type", Str(t))])
    else Obj([Member("type", Str("array")), Member("items", ArrayOf(depth - 1, t))])
  }

  function Repeat(s: string, n: nat): string
  {
    if n == 0 then "" else s + Repeat(s, n - 1)
  }

  /** `n` paragraphs wrapped around a node. */
  function Nested(n: nat, node: Node): Node
  {
    if n == 0 then node else Paragraph([Nested(n - 1, node)])
  }

  /** Arrays nest their labels: each level adds "array of " to the name
      and one paragraph around the description of its items. */
  lemma {:induction false} ArrayLabels(name: string, depth: nat, t: string)
    requires t == "boolean" || t == "string" || t == "integer"
    ensures MakeSchema(name, ArrayOf(depth, t)) ==
              Ok(Nested(depth, Paragraph([Text(name + Repeat("array of ", depth) + t)])))
    decreases depth
  {
    if depth == 0 {
      ArrayBase(name, t);
    } else {
      ArrayLabels(name + "array of ", depth - 1, t);
      ArrayStep(name, depth, t);
      ArrayText(name, depth, t);
    }
  }

  lemma ArrayText(name: string, depth: nat, t: string)
    requires depth > 0
    ensures name + "array of " + Repeat("array of ", depth - 1) + t == name + Repeat("array of ", depth) + t
  {
  }

  lemma ArrayBase(name: string, t: string)
    requires t == "boolean" || t == "string" || t == "integer"
    ensures MakeSchema(name, ArrayOf(0, t)) == Ok(Nested(0, Paragraph([Text(name + Repeat("array of ", 0) + t)])))
  {
    assert name + Repeat("array of ", 0) + t == name + t;
    assert ArrayOf(0, t) == Obj([Member("type", Str(t))]);
    PrimitiveLevel(name, t);
  }

  lemma ArrayStep(name: string, depth: nat, t: string)
    requires depth > 0
    ensures MakeSchema(name, ArrayOf(depth, t)) ==
              match MakeSchema(name + "array of ", ArrayOf(depth - 1, t))
              case Ok(n) => Ok(Paragraph([n]))
              case Raised => Raised
  {
    ArrayLevel(name, ArrayOf(depth - 1, t));
  }

  lemma PrimitiveLevel(name: string, t: string)
    requires t == "boolean" || t == "string" || t == "integer"
    ensures MakeSchema(name, Obj([Member("type", Str(t))])) == Ok(Paragraph([Text(name + t)]))
  {
    var s := Obj([Member("type", Str(t))]);
    FieldOfOne(Member("type", Str(t)), "$ref");
    FieldOfOne(Member("type", Str(t)), "type");
    PrimitiveType(name, s);
    SchemaWrapsObject(name, s);
  }

  lemma ArrayLevel(name: string, items: Json)
    requires items != Null
    ensures MakeSchema(name, Obj([Member("type", Str("array")), Member("items", items)])) ==
              match MakeSchema(name + "array of ", items)
              case Ok(n) => Ok(Paragraph([n]))
              case Raised => Raised
  {
    var a := Member("type", Str("array"));
    var b := Member("items", items);
    FieldOfTwo(a, b, "$ref");
    FieldOfTwo(a, b, "type");
    FieldOfTwo(a, b, "items");
    ArrayType(name, Obj([a, b]));
    SchemaWrapsObject(name, Obj([a, b]));
  }

  /** A property whose own schema is described by a properties block (an
      inline object with `properties`) makes the whole table raise: the
      two-node list cannot sit in a table entry. */
  lemma NestedPropertiesRaise(fields: seq<Member>, required: Json, i: nat)
    requires i < |fields|
    requires MakeObject("", fields[i].val).Ok? && MakeObject("", fields[i].val).value.Many?
    ensures PropertiesTable(Obj(fields), required) == Raised
  {
    PropertyRowsOk(fields, required);
    var rows := PropertyRows(fields, required);
    if rows.Ok? {
      var row := PropertyRow(fields[i], required).value;
      assert rows.value[i] == row;
      assert row[2] == DescribedCell(MakeObject("", fields[i].val).value) == CBad;
      assert CreateTable(["Name", "Description", "Type"], rows.value).Raised?;
    }
  }

  /** Such a property exists: `{"type": "object", "properties": {"x":
      {"type": "object", "properties": {}}}}` cannot be rendered. */
  lemma InlineObjectPropertyRaises()
    ensures var inner := Obj([Member("type", Str("object")), Member("properties", Obj([]))]);
            MakeSchema("", Obj([Member("type", Str("object")), Member("properties", Obj([Member("x", inner)]))])) == Raised
  {
    var t := Member("type", Str("object"));
    var empty := Member("properties", Obj([]));
    var inner := Obj([t, empty]);
    var nested := Member("properties", Obj([Member("x", inner)]));
    var outer := Obj([t, nested]);
    FieldOfTwo(t, empty, "$ref");
    FieldOfTwo(t, empty, "type");
    FieldOfTwo(t, empty, "properties");
    FieldOfTwo(t, empty, "required");
    ObjectType("", inner);
    assert PropertiesTable(Obj([]), Arr([])).Ok?;
    NestedPropertiesRaise([Member("x", inner)], Arr([]), 0);
    FieldOfTwo(t, nested, "$ref");
    FieldOfTwo(t, nested, "type");
    FieldOfTwo(t, nested, "properties");
    FieldOfTwo(t, nested, "required");
    ObjectType("", outer);
    SchemaWrapsObject("", outer);
  }

  /** `{"type": "object", "properties": {"id": {"type": "integer"}},
      "required": ["id"]}` gives a Fields table with the single row
      `id*` / (empty) / `integer`. */
  lemma RequiredIdExample()
    ensures var s := Obj([Member("type", Str("object")),
                          Member("properties", Obj([Member("id", Obj([Member("type", Str("integer"))]))])),
                          Member("required", Arr([Str("id")]))]);
            MakeSchema("", s) ==
              Ok(Paragraph([Paragraph([Strong("Fields")]),
                            Table([1, 1, 1],
                                  [Entry([TextParagraph("Name")]), Entry([TextParagraph("Description")]), Entry([TextParagraph("Type")])],
                                  [[Entry([TextParagraph("id*")]), Entry([TextParagraph("")]), Entry([TextParagraph("integer")])]])]))
  {
    var t := Member("type", Str("object"));
    var pm := Member("properties", Obj([Member("id", Obj([Member("type", Str("integer"))]))]));
    var rm := Member("required", Arr([Str("id")]));
    FieldOfThree(t, pm, rm, "$ref");
    IdObject();
    SchemaWrapsObject("", Obj([t, pm, rm]));
  }

  lemma IdObject()
    ensures var s := Obj([Member("type", Str("object")),
                          Member("properties", Obj([Member("id", Obj([Member("type", Str("integer"))]))])),
                          Member("required", Arr([Str("id")]))]);
            MakeObject("", s) ==
              Ok(Many([Paragraph([Strong("Fields")]),
                       Table([1, 1, 1],
                             [Entry([TextParagraph("Name")]), Entry([TextParagraph("Description")]), Entry([TextParagraph("Type")])],
                             [[Entry([TextParagraph("id*")]), Entry([TextParagraph("")]), Entry([TextParagraph("integer")])]])]))
  {
    var t := Member("type", Str("object"));
    var pm := Member("properties", Obj([Member("id", Obj([Member("type", Str("integer"))]))]));
    var rm := Member("required", Arr([Str("id")]));
    FieldOfThree(t, pm, rm, "$ref");
    FieldOfThree(t, pm, rm, "type");
    FieldOfThree(t, pm, rm, "properties");
    FieldOfThree(t, pm, rm, "required");
    IdTable();
    ObjectType("", Obj([t, pm, rm]));
  }

  lemma IdRow()
    ensures PropertyRow(Member("id", Obj([Member("type", Str("integer"))])), Arr([Str("id")])) ==
              Ok([CText("id*"), CText(""), CText("integer")])
  {
    var it := Member("type", Str("integer"));
    FieldOfOne(it, "$ref");
    FieldOfOne(it, "type");
    FieldOfOne(it, "description");
    PrimitiveType("", Obj([it]));
    assert "id" + "*" == "id*";
    assert "" + "integer" == "integer";
  }

  lemma IdTable()
    ensures PropertiesTable(Obj([Member("id", Obj([Member("type", Str("integer"))]))]), Arr([Str("id")])) ==
              Ok([Paragraph([Strong("Fields")]),
                  Table([1, 1, 1],
                        [Entry([TextParagraph("Name")]), Entry([TextParagraph("Description")]), Entry([TextParagraph("Type")])],
                        [[Entry([TextParagraph("id*")]), Entry([TextParagraph("")]), Entry([TextParagraph("integer")])]])])
  {
    IdRows();
    IdCells();
  }

  lemma IdRows()
    ensures PropertyRows([Member("id", Obj([Member("type", Str("integer"))]))], Arr([Str("id")])) ==
              Ok([[CText("id*"), CText(""), CText("integer")]])
  {
    var m := Member("id", Obj([Member("type", Str("integer"))]));
    var row := [CText("id*"), CText(""), CText("integer")];
    IdRow();
    PropertyRowsOk([m], Arr([Str("id")]));
    var rows := PropertyRows([m], Arr([Str("id")]));
    assert rows.Ok? && |rows.value| == 1 && rows.value[0] == row;
    assert rows.value == [row];
  }

  lemma IdCells()
    ensures CreateTable(["Name", "Description", "Type"], [[CText("id*"), CText(""), CText("integer")]]) ==
              Ok(Table([1, 1, 1],
                       [Entry([TextParagraph("Name")]), Entry([TextParagraph("Description")]), Entry([TextParagraph("Type")])],
                       [[Entry([TextParagraph("id*")]), Entry([TextParagraph("")]), Entry([TextParagraph("integer")])]]))
  {
    var row := [CText("id*"), CText(""), CText("integer")];
    var table := CreateTable(["Name", "Description", "Type"], [row]);
    assert table.Ok?;
    assert table.value.colwidths == [1, 1, 1];
    assert table.value.head == [Entry([TextParagraph("Name")]), Entry([TextParagraph("Description")]), Entry([TextParagraph("Type")])];
    assert table.value.body[0] == [Entry([TextParagraph("id*")]), Entry([TextParagraph("")]), Entry([TextParagraph("integer")])];
    assert table.value.body == [[Entry([TextParagraph("id*")]), Entry([TextParagraph("")]), Entry([TextParagraph("integer")])]];
  }
}
