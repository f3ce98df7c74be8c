/** The block builders of the Swagger 2.0 directive: the parameters and
    responses tables of an operation, and the admonition blocks for an
    operation, a reusable response and a definition. Each builder is a
    function stating what the block is, and a method that builds it the way
    the directive does, row by row, proved to build exactly that block. */
module SwaggerV2Blocks {
  import opened Outcomes
  import opened PyJson
  import opened DocTree
  import opened SchemaDescriber

  const ParameterHead := ["Name", "Position", "Description", "Type"]
  const ResponseHead := ["Code", "Type"]

  // ---------------------------------------------------------------- parameters

  /** The Type cell of a parameter without a `type`: its rendered `schema`,
      or the empty string. */
  function SchemaCell(param: Json): Outcome<Cell>
  {
    var s := Field(param, "schema");
    if s != Null then
      var n :- MakeSchema("", s);
      Ok(CNode(n))
    else
      Ok(CText(""))
  }

  /** One row of `make_parameters`: name (marked when `required` is
      truthy), position, description and type. A required parameter's name
      must be a string, since `'*'` is appended to it. */
  function ParameterRow(param: Json): Outcome<seq<Cell>>
  {
    var req :- GetOr(param, "required", Bool(false));
    var name :- GetOr(param, "name", Str(""));
    var nameCell :- if !Truthy(req) then Ok(JsonCell(name))
                    else if name.Str? then Ok(CText(name.s + "*"))
                    else Raised;
    var position :- GetOr(param, "in", Str(""));
    var description :- GetOr(param, "description", Str(""));
    var t :- Get(param, "type");
    var typeCell :- if t != Null then Ok(JsonCell(t)) else SchemaCell(param);
    Ok([nameCell, JsonCell(position), JsonCell(description), typeCell])
  }

  /** `make_parameters(parameters)`: a bold "Parameters" heading and a
      Name/Position/Description/Type table with one row per parameter. */
  function ParametersBlock(parameters: Json): Outcome<seq<Node>>
  {
    var params :- Elements(parameters);
    var body :- MapAll(ParameterRow, params);
    var table :- CreateTable(ParameterHead, body);
    Ok([Paragraph([Strong("Parameters")]), table])
  }

  /** The cells of a parameter's row: the name, marked with `*` exactly
      when `required` is truthy, and `''` for a missing name, position or
      description; the Type cell is `type` when present, else the rendered
      `schema`, else `''`. */
  lemma ParameterRowCells(param: Json)
    requires ParameterRow(param).Ok?
    ensures param.Obj?
    ensures var row := ParameterRow(param).value;
            var req := Default(param, "required", Bool(false));
            var name := Default(param, "name", Str(""));
            |row| == 4 &&
            row[0] == (if Truthy(req) then CText(name.s + "*") else JsonCell(name)) &&
            row[1] == JsonCell(Default(param, "in", Str(""))) &&
            row[2] == JsonCell(Default(param, "description", Str("")))
    ensures var row := ParameterRow(param).value;
            !HasKey(param.fields, "name") && !Truthy(Default(param, "required", Bool(false))) ==> row[0] == CText("")
    ensures var row := ParameterRow(param).value;
            !HasKey(param.fields, "in") ==> row[1] == CText("")
    ensures var row := ParameterRow(param).value;
            !HasKey(param.fields, "description") ==> row[2] == CText("")
    ensures var row := ParameterRow(param).value;
            Field(param, "type") != Null ==> row[3] == JsonCell(Field(param, "type"))
    ensures var row := ParameterRow(param).value;
            var s := Field(param, "schema");
            Field(param, "type") == Null && s != Null ==> row[3] == CNode(MakeSchema("", s).value)
    ensures var row := ParameterRow(param).value;
            Field(param, "type") == Null && Field(param, "schema") == Null ==> row[3] == CText("")
  {
  }

  /** A row cannot be built exactly when the parameter is not a dict, when
      it is required but its name is not a string, or when its `schema`
      (consulted only without a `type`) cannot be described. */
  lemma ParameterRowRaises(param: Json)
    ensures ParameterRow(param).Raised? <==>
              !param.Obj? ||
              (Truthy(Default(param, "required", Bool(false))) && !Default(param, "name", Str("")).Str?) ||
              (Field(param, "type") == Null && Field(param, "schema") != Null && MakeSchema("", Field(param, "schema")).Raised?)
  {
  }

  /** The parameters block has one table row per parameter, in input
      order, each with four entries built from that parameter's cells. */
  lemma ParametersTable(params: seq<Json>)
    requires ParametersBlock(Arr(params)).Ok?
    ensures var block := ParametersBlock(Arr(params)).value;
            |block| == 2 && block[0] == Paragraph([Strong("Parameters")]) &&
            block[1].Table? && |block[1].colwidths| == 4 && |block[1].body| == |params|
    ensures var table := ParametersBlock(Arr(params)).value[1];
            forall i :: 0 <= i < |params| ==>
              ParameterRow(params[i]).Ok? && |table.body[i]| == 4 &&
              forall k :: 0 <= k < 4 ==> Ok(table.body[i][k]) == CellNode(ParameterRow(params[i]).value[k])
  {
    MapAllOk(ParameterRow, params);
    var body := MapAll(ParameterRow, params).value;
    forall i | 0 <= i < |params|
      ensures |body[i]| == 4
    {
      ParameterRowCells(params[i]);
    }
  }

  /** With a string name, the name cell shows the name followed by `*`
      exactly when `required` is truthy. */
  lemma RequiredParameterMarked(params: seq<Json>, i: nat)
    requires ParametersBlock(Arr(params)).Ok?
    requires i < |params|
    requires params[i].Obj? && Default(params[i], "name", Str("")).Str?
    ensures var table := ParametersBlock(Arr(params)).value[1];
            var name := Default(params[i], "name", Str("")).s;
            |table.body| == |params| && |table.body[i]| == 4 &&
            table.body[i][0] == Entry([TextParagraph(Marked(name, Truthy(Default(params[i], "required", Bool(false)))))])
  {
    ParametersTable(params);
    ParameterRowCells(params[i]);
  }

  // ---------------------------------------------------------------- responses

  /** One row of `make_method_responses`: the status code and the rendered
      response object. */
  function ResponseRow(response: Member): Outcome<seq<Cell>>
  {
    var n :- MakeSchema("", response.val);
    Ok([CText(response.key), CNode(n)])
  }

  /** `make_method_responses(responses)`: nothing at all for an empty map,
      otherwise a bold "Responses" heading and a Code/Type table. Only a
      dict has `items()`. */
  function ResponsesBlock(responses: Json): Outcome<seq<Node>>
  {
    if !responses.Obj? then Raised
    else
      var body :- MapAll(ResponseRow, responses.fields);
      if |body| == 0 then Ok([])
      else
        var table :- CreateTable(ResponseHead, body);
        Ok([Paragraph([Strong("Responses")]), table])
  }

  /** The responses block is empty exactly for an empty response map. */
  lemma EmptyResponses(responses: Json)
    requires ResponsesBlock(responses).Ok?
    ensures ResponsesBlock(responses).value == [] <==> responses == Obj([])
  {
    MapAllOk(ResponseRow, responses.fields);
  }

  /** For a non-empty map the block is a heading and a table with one
      `code | make_schema('', response)` row per entry, in order; it is
      built exactly when every response can be described. */
  lemma ResponsesTable(codes: seq<Member>)
    requires codes != []
    ensures ResponsesBlock(Obj(codes)).Ok? <==> forall i :: 0 <= i < |codes| ==> MakeSchema("", codes[i].val).Ok?
    ensures ResponsesBlock(Obj(codes)).Ok? ==>
              var block := ResponsesBlock(Obj(codes)).value;
              |block| == 2 && block[0] == Paragraph([Strong("Responses")]) &&
              block[1].Table? && |block[1].colwidths| == 2 && |block[1].body| == |codes| &&
              forall i :: 0 <= i < |codes| ==>
                block[1].body[i] == [Entry([TextParagraph(codes[i].key)]), Entry([MakeSchema("", codes[i].val).value])]
  {
    MapAllOk(ResponseRow, codes);
    var rows := MapAll(ResponseRow, codes);
    if rows.Ok? {
      var table := CreateTable(ResponseHead, rows.value);
      assert table.Ok?;
      forall i | 0 <= i < |codes|
        ensures table.value.body[i] == [Entry([TextParagraph(codes[i].key)]), Entry([MakeSchema("", codes[i].val).value])]
      {
        assert |table.value.body[i]| == 2;
        assert Ok(table.value.body[i][0]) == CellNode(rows.value[i][0]);
        assert Ok(table.value.body[i][1]) == CellNode(rows.value[i][1]);
      }
    }
  }

  // ---------------------------------------------------------------- metadata

  /** The bullet list under a block's summary: one item per present field
      among description, consumes and produces, in that order, each shown
      as Python's `str` of the value. */
  function Metadata(obj: Json): (items: seq<Node>)
    requires obj.Obj?
  {
    (if Field(obj, "description") != Null then [Item("Description: \n", PyStr(Field(obj, "description")))] else []) +
    (if Field(obj, "consumes") != Null then [Item("Consumes: \n", PyStr(Field(obj, "consumes")))] else []) +
    (if Field(obj, "produces") != Null then [Item("Produces: \n", PyStr(Field(obj, "produces")))] else [])
  }

  /** The three sections of `method_sections`, in the dict's order. */
  const MetadataSections: seq<(string, string)> :=
    [("Description", "description"), ("Consumes", "consumes"), ("Produces", "produces")]

  /** The list built from the first `n` sections. */
  function MetadataPrefix(obj: Json, n: nat): seq<Node>
    requires obj.Obj? && n <= |MetadataSections|
  {
    if n == 0 then []
    else
      var section := MetadataSections[n - 1];
      var value := Field(obj, section.1);
      MetadataPrefix(obj, n - 1) + (if value != Null then [Item(section.0 + ": \n", PyStr(value))] else [])
  }

  /** Walking the sections one by one gives the list of present fields. */
  lemma MetadataPrefixComplete(obj: Json)
    requires obj.Obj?
    ensures MetadataPrefix(obj, 3) == Metadata(obj)
  {
    assert MetadataSections[0] == ("Description", "description");
    assert MetadataSections[1] == ("Consumes", "consumes");
    assert MetadataSections[2] == ("Produces", "produces");
    assert "Description" + ": \n" == "Description: \n";
    assert "Consumes" + ": \n" == "Consumes: \n";
    assert "Produces" + ": \n" == "Produces: \n";
    var d := Field(obj, "description");
    var c := Field(obj, "consumes");
    var p := Field(obj, "produces");
    assert MetadataPrefix(obj, 1) == if d != Null then [Item("Description" + ": \n", PyStr(d))] else [];
    assert MetadataPrefix(obj, 2) == MetadataPrefix(obj, 1) + if c != Null then [Item("Consumes" + ": \n", PyStr(c))] else [];
    assert MetadataPrefix(obj, 3) == MetadataPrefix(obj, 2) + if p != Null then [Item("Produces" + ": \n", PyStr(p))] else [];
  }

  /** The `for title in method_sections` loop of `make_method`,
      `make_response` and `make_definition`. */
  method MakeMetadataList(obj: Json) returns (items: seq<Node>)
    requires obj.Obj?
    ensures items == Metadata(obj)
    ensures |items| <= 3
  {
    items := [];
    for n := 0 to |MetadataSections|
      invariant items == MetadataPrefix(obj, n)
    {
      var (title, key) := MetadataSections[n];
      var value := Field(obj, key);
      if value != Null {
        items := items + [Item(title + ": \n", PyStr(value))];
      }
    }
    MetadataPrefixComplete(obj);
  }

  /** A present field gives an item showing its value; an absent one (or
      one bound to `null`) gives none. */
  lemma MetadataOnlyPresent(obj: Json)
    requires obj.Obj?
    ensures |Metadata(obj)| ==
              (if Field(obj, "description") != Null then 1 else 0) +
              (if Field(obj, "consumes") != Null then 1 else 0) +
              (if Field(obj, "produces") != Null then 1 else 0)
    ensures Field(obj, "description") != Null ==> Metadata(obj)[0] == Item("Description: \n", PyStr(Field(obj, "description")))
    ensures Field(obj, "description") == Null && Field(obj, "consumes") == Null ==>
              Metadata(obj) == (if Field(obj, "produces") != Null then [Item("Produces: \n", PyStr(Field(obj, "produces")))] else [])
  {
  }

  // ---------------------------------------------------------------- blocks

  /** The block's summary paragraph: the summary text, then the list. */
  function SummaryParagraph(summary: Json, items: seq<Node>): Node
  {
    Paragraph([Text(PyStr(summary)), BulletList(items)])
  }

  /** The parameters block of an operation that has `parameters`. */
  function ParametersPart(operation: Json): Outcome<seq<Node>>
  {
    var parameters := Field(operation, "parameters");
    if parameters != Null then ParametersBlock(parameters) else Ok([])
  }

  /** The responses block of an operation that has `responses`. */
  function ResponsesPart(operation: Json): Outcome<seq<Node>>
  {
    var responses := Field(operation, "responses");
    if responses != Null then ResponsesBlock(responses) else Ok([])
  }

  /** `make_method(path, method_type, method)`: an admonition titled with
      the upper-cased method and the path, the summary paragraph, then the
      parameters block if `parameters` is present and the responses block
      if `responses` is. */
  function MethodBlock(path: string, methodType: string, operation: Json): Outcome<seq<Node>>
  {
    var summary :- GetOr(operation, "summary", Str(""));
    var params :- ParametersPart(operation);
    var resps :- ResponsesPart(operation);
    Ok([Admonition([Title(Upper(methodType) + " " + path), SummaryParagraph(summary, Metadata(operation))] + params + resps)])
  }

  /** The operation block: one admonition holding its title and its
      summary paragraph, followed by the parameters table only when the
      operation has `parameters` and the responses table only when it has
      `responses`. */
  lemma MethodBlockShape(path: string, methodType: string, operation: Json)
    requires MethodBlock(path, methodType, operation).Ok?
    ensures operation.Obj?
    ensures var parameters := Field(operation, "parameters");
            var responses := Field(operation, "responses");
            MethodBlock(path, methodType, operation).value ==
              [Admonition([Title(Upper(methodType) + " " + path),
                           SummaryParagraph(Default(operation, "summary", Str("")), Metadata(operation))] +
                          (if parameters != Null then ParametersBlock(parameters).value else []) +
                          (if responses != Null then ResponsesBlock(responses).value else []))]
  {
  }

  /** The dict `d` after `d[key] = v`: an existing key keeps its place and
      takes the new value, a new key goes at the end. */
  function SetField(d: Json, key: string, v: Json): (r: Json)
    requires d.Obj?
    ensures r.Obj?
    ensures Field(r, key) == v
    ensures forall k :: k != key ==> Field(r, k) == Field(d, k)
    ensures forall k :: HasKey(r.fields, k) <==> HasKey(d.fields, k) || k == key
  {
    if HasKey(d.fields, key) then
      Obj(Replace(d.fields, key, v))
    else
      var fields := d.fields + [Member(key, v)];
      LookupSnoc(d.fields, Member(key, v));
      Obj(fields)
  }

  /** Every member bound to `key` takes the value `v`. */
  function Replace(fields: seq<Member>, key: string, v: Json): (r: seq<Member>)
    requires HasKey(fields, key)
    ensures |r| == |fields|
    ensures forall i :: 0 <= i < |r| ==> r[i].key == fields[i].key
    ensures Lookup(r, key) == Some(v)
    ensures forall k :: k != key ==> Lookup(r, k) == Lookup(fields, k)
  {
    var r := seq(|fields|, i requires 0 <= i < |fields| => if fields[i].key == key then Member(key, v) else fields[i]);
    ReplaceLookup(fields, r, key, v);
    r
  }

  lemma {:induction false} ReplaceLookup(fields: seq<Member>, r: seq<Member>, key: string, v: Json)
    requires |r| == |fields|
    requires forall i :: 0 <= i < |r| ==> r[i] == if fields[i].key == key then Member(key, v) else fields[i]
    ensures HasKey(fields, key) ==> Lookup(r, key) == Some(v)
    ensures forall k :: k != key ==> Lookup(r, k) == Lookup(fields, k)
  {
    if fields != [] {
      var n := |fields| - 1;
      ReplaceLookup(fields[..n], r[..n], key, v);
      if fields[n].key != key && HasKey(fields, key) {
        var i :| 0 <= i < |fields| && fields[i].key == key;
        assert fields[..n][i].key == key;
      }
    }
  }

  /** Looking up in a dict with one more member at the end. */
  lemma LookupSnoc(fields: seq<Member>, m: Member)
    ensures Lookup(fields + [m], m.key) == Some(m.val)
    ensures forall k :: k != m.key ==> Lookup(fields + [m], k) == Lookup(fields, k)
  {
    assert (fields + [m])[..|fields|] == fields;
  }

  /** The schema `make_response` documents: the response's `schema`, given
      the response's `description` when it has one (the document is updated
      in place), or a dict holding only that description. A `schema` that
      is not a dict cannot take the description. */
  function ResponseSchema(obj: Json): (r: Outcome<Json>)
  {
    var schema :- Get(obj, "schema");
    var desc :- Get(obj, "description");
    if schema != Null then
      if desc == Null then Ok(schema)
      else if schema.Obj? then Ok(SetField(schema, "description", desc))
      else Raised
    else if desc != Null then Ok(Obj([Member("description", desc)]))
    else Ok(Obj([]))
  }

  /** The one-row parameter list `make_response` hands to
      `make_parameters`. */
  function PayloadParameter(schema: Json): Json
  {
    Arr([Obj([Member("in", Str("Body")), Member("schema", schema), Member("name", Str("Payload"))])])
  }

  /** `make_response(name, obj)`: a section titled `name` holding an
      admonition with the title, the summary paragraph of the merged schema
      and a parameters table whose single row is the body payload. */
  function ResponseBlock(name: string, obj: Json): Outcome<Node>
  {
    var schema :- ResponseSchema(obj);
    var summary :- GetOr(schema, "summary", Str(""));
    var params :- ParametersBlock(PayloadParameter(schema));
    Ok(SectionOf(name, [Admonition([Title(name), SummaryParagraph(summary, Metadata(schema))] + params)]))
  }

  /** The response's own description is the one its block shows, even
      when its schema has a description of its own. */
  lemma ResponseDescriptionShown(name: string, obj: Json)
    requires ResponseBlock(name, obj).Ok?
    requires obj.Obj? && Field(obj, "description") != Null
    ensures var schema := ResponseSchema(obj).value;
            schema.Obj? && Metadata(schema)[0] == Item("Description: \n", PyStr(Field(obj, "description")))
  {
  }

  /** The payload row: named "Payload", in the body, with no description,
      its type the rendered merged schema. */
  lemma PayloadRow(schema: Json)
    requires schema.Obj?
    ensures ParameterRow(Obj([Member("in", Str("Body")), Member("schema", schema), Member("name", Str("Payload"))])) ==
              match MakeSchema("", schema)
              case Ok(n) => Ok([CText("Payload"), CText("Body"), CText(""), CNode(n)])
              case Raised => Raised
  {
    var a := Member("in", Str("Body"));
    var b := Member("schema", schema);
    var c := Member("name", Str("Payload"));
    FieldOfThree(a, b, c, "required");
    FieldOfThree(a, b, c, "name");
    FieldOfThree(a, b, c, "in");
    FieldOfThree(a, b, c, "description");
    FieldOfThree(a, b, c, "type");
    FieldOfThree(a, b, c, "schema");
  }

  /** `make_definition(name, obj)`: a section titled `name` holding an
      admonition with the title, the summary paragraph and the rendered
      definition. */
  function DefinitionBlock(name: string, obj: Json): Outcome<Node>
  {
    var summary :- GetOr(obj, "summary", Str(""));
    var schema :- MakeSchema("", obj);
    Ok(SectionOf(name, [Admonition([Title(name), SummaryParagraph(summary, Metadata(obj)), schema])]))
  }

  /** A response object without `$ref` or `type` is described as "No Data
      Returned", whatever its `schema` holds: the responses table renders
      the response object itself, not its `schema`. */
  lemma ResponseTypeIgnoresSchema(code: string, response: Json)
    requires response.Obj? && Field(response, "$ref") == Null && Field(response, "type") == Null
    ensures ResponseRow(Member(code, response)) == Ok([CText(code), CNode(Paragraph([Text("No Data Returned")]))])
  {
    OtherType("", response);
    SchemaWrapsObject("", response);
    assert "" + "No Data Returned" == "No Data Returned";
  }

  // ---------------------------------------------------------------- builders

  /** The body of `make_parameters`' loop: one parameter's row, cell by
      cell. */
  method MakeParameterRow(param: Json) returns (r: Outcome<seq<Cell>>)
    ensures r == ParameterRow(param)
  {
    if !param.Obj? {
      return Raised;
    }
    var nameCell: Cell;
    var req := Default(param, "required", Bool(false));
    var name := Default(param, "name", Str(""));
    if Truthy(req) {
      if !name.Str? {
        return Raised;
      }
      nameCell := CText(name.s + "*");
    } else {
      nameCell := JsonCell(name);
    }
    var typeCell: Cell;
    var t := Field(param, "type");
    if t != Null {
      typeCell := JsonCell(t);
    } else {
      var s := Field(param, "schema");
      if s != Null {
        var n := MakeSchema("", s);
        if n.Raised? {
          return Raised;
        }
        typeCell := CNode(n.value);
      } else {
        typeCell := CText("");
      }
    }
    return Ok([nameCell, JsonCell(Default(param, "in", Str(""))), JsonCell(Default(param, "description", Str(""))), typeCell]);
  }

  /** `make_parameters`: the rows are appended one parameter at a time. */
  method MakeParameters(parameters: Json) returns (r: Outcome<seq<Node>>)
    ensures r == ParametersBlock(parameters)
  {
    var elements := Elements(parameters);
    if elements.Raised? {
      return Raised;
    }
    var params := elements.value;
    var body: seq<seq<Cell>> := [];
    for i := 0 to |params|
      invariant MapAll(ParameterRow, params[..i]) == Ok(body)
    {
      var row := MakeParameterRow(params[i]);
      if row.Raised? {
        MapAllRaises(ParameterRow, params, i);
        return Raised;
      }
      MapAllStep(ParameterRow, params, i, body, row.value);
      body := body + [row.value];
    }
    assert params[..|params|] == params;
    var table := CreateTable(ParameterHead, body);
    if table.Raised? {
      return Raised;
    }
    return Ok([Paragraph([Strong("Parameters")]), table.value]);
  }

  /** The body of `make_properties`' loop: one property's row. */
  method MakePropertyRow(property: Member, required: Json) returns (r: Outcome<seq<Cell>>)
    ensures r == PropertyRow(property, required)
  {
    var isRequired := Contains(required, property.key);
    if isRequired.Raised? {
      return Raised;
    }
    var nameCell := CText(if isRequired.value then property.key + "*" else property.key);
    var description := GetOr(property.val, "description", Str(""));
    if description.Raised? {
      return Raised;
    }
    var described := MakeObject("", property.val);
    if described.Raised? {
      return Raised;
    }
    return Ok([nameCell, JsonCell(description.value), DescribedCell(described.value)]);
  }

  /** `make_properties`: one row per property, appended in property
      order. */
  method MakeProperties(properties: Json, required: Json) returns (r: Outcome<seq<Node>>)
    ensures r == PropertiesTable(properties, required)
  {
    if !properties.Obj? {
      return Raised;
    }
    var fields := properties.fields;
    var rowOf := m => PropertyRow(m, required);
    PropertyRowsAreMapAll(fields, required);
    var body: seq<seq<Cell>> := [];
    for i := 0 to |fields|
      invariant MapAll(rowOf, fields[..i]) == Ok(body)
    {
      var row := MakePropertyRow(fields[i], required);
      if row.Raised? {
        MapAllRaises(rowOf, fields, i);
        return Raised;
      }
      MapAllStep(rowOf, fields, i, body, row.value);
      body := body + [row.value];
    }
    assert fields[..|fields|] == fields;
    var table := CreateTable(["Name", "Description", "Type"], body);
    if table.Raised? {
      return Raised;
    }
    return Ok([Paragraph([Strong("Fields")]), table.value]);
  }

  /** `make_method_responses`: one row per response code, and nothing at
      all when there is none. */
  method MakeMethodResponses(responses: Json) returns (r: Outcome<seq<Node>>)
    ensures r == ResponsesBlock(responses)
  {
    if !responses.Obj? {
      return Raised;
    }
    var codes := responses.fields;
    var body: seq<seq<Cell>> := [];
    for i := 0 to |codes|
      invariant MapAll(ResponseRow, codes[..i]) == Ok(body)
      invariant |body| == i
    {
      var n := MakeSchema("", codes[i].val);
      if n.Raised? {
        MapAllRaises(ResponseRow, codes, i);
        return Raised;
      }
      var row := [CText(codes[i].key), CNode(n.value)];
      MapAllStep(ResponseRow, codes, i, body, row);
      body := body + [row];
    }
    assert codes[..|codes|] == codes;
    if |body| == 0 {
      return Ok([]);
    }
    var table := CreateTable(ResponseHead, body);
    if table.Raised? {
      return Raised;
    }
    return Ok([Paragraph([Strong("Responses")]), table.value]);
  }

  /** `make_method`: the admonition grows child by child. */
  method MakeMethod(path: string, methodType: string, operation: Json) returns (r: Outcome<seq<Node>>)
    ensures r == MethodBlock(path, methodType, operation)
  {
    var summary := GetOr(operation, "summary", Str(""));
    if summary.Raised? {
      return Raised;
    }
    var items := MakeMetadataList(operation);
    var children := [Title(Upper(methodType) + " " + path), SummaryParagraph(summary.value, items)];
    ghost var head := children;
    var params: seq<Node> := [];
    var parameters := Field(operation, "parameters");
    if parameters != Null {
      var built := MakeParameters(parameters);
      if built.Raised? {
        return Raised;
      }
      params := built.value;
    }
    assert ParametersPart(operation) == Ok(params);
    children := children + params;
    var resps: seq<Node> := [];
    var responses := Field(operation, "responses");
    if responses != Null {
      var built := MakeMethodResponses(responses);
      if built.Raised? {
        return Raised;
      }
      resps := built.value;
    }
    assert ResponsesPart(operation) == Ok(resps);
    children := children + resps;
    return Ok([Admonition(children)]);
  }

  /** `make_response`: the description is written into the schema, which
      is then documented with a single body-payload parameter. */
  method MakeResponse(name: string, obj: Json) returns (r: Outcome<Node>)
    ensures r == ResponseBlock(name, obj)
  {
    var schema := Get(obj, "schema");
    var desc := Get(obj, "description");
    if schema.Raised? || desc.Raised? {
      return Raised;
    }
    var merged: Json;
    if schema.value != Null {
      merged := schema.value;
      if desc.value != Null {
        if !merged.Obj? {
          return Raised;
        }
        merged := SetField(merged, "description", desc.value);
      }
    } else {
      merged := Obj([]);
      if desc.value != Null {
        merged := SetField(merged, "description", desc.value);
        assert merged == Obj([Member("description", desc.value)]);
      }
    }
    assert ResponseSchema(obj) == Ok(merged);
    var summary := GetOr(merged, "summary", Str(""));
    if summary.Raised? {
      return Raised;
    }
    var items := MakeMetadataList(merged);
    var params := MakeParameters(PayloadParameter(merged));
    if params.Raised? {
      return Raised;
    }
    var block := Admonition([Title(name), Paragraph([Text(PyStr(summary.value)), BulletList(items)])] + params.value);
    return Ok(SectionOf(name, [block]));
  }

  /** `make_definition`: the summary paragraph, then the rendered
      definition. */
  method MakeDefinition(name: string, obj: Json) returns (r: Outcome<Node>)
    ensures r == DefinitionBlock(name, obj)
  {
    var summary := GetOr(obj, "summary", Str(""));
    if summary.Raised? {
      return Raised;
    }
    var items := MakeMetadataList(obj);
    var schema := MakeSchema("", obj);
    if schema.Raised? {
      return Raised;
    }
    var block := Admonition([Title(name), Paragraph([Text(PyStr(summary.value)), BulletList(items)]), schema.value]);
    return Ok(SectionOf(name, [block]));
  }
}
