/** The Swagger 1.2 directive: `run` lists every operation of every API
    as one block, or shows an error block when any of that raises. */
module SwaggerV1 {
  import opened Outcomes
  import opened PyJson
  import opened DocTree
  import opened ExpandValues

  /** `make_operation(path, operation)`: an admonition titled with the
      upper-cased method and the path, holding the summary and a list of
      the notes, the consumed types and the produced types. */
  function OperationBlock(path: Json, operation: Json): Outcome<Node>
  {
    var httpMethod :- Index(operation, "method");
    if !httpMethod.Str? || !path.Str? then Raised
    else
      var summary :- Index(operation, "summary");
      var notes :- GetOr(operation, "notes", Str(""));
      var consumes :- GetOr(operation, "consumes", Str(""));
      var consumed :- Expand(consumes);
      var produces :- GetOr(operation, "produces", Str(""));
      var produced :- Expand(produces);
      Ok(Admonition([Title(Upper(httpMethod.s) + " " + path.s),
                     Paragraph([Text(PyStr(summary)),
                                BulletList([Item("Notes: ", PyStr(notes)),
                                            Item("Consumes: ", consumed),
                                            Item("Produces: ", produced)])])]))
  }

  /** One operation of `api`; the API's `path` is read for each operation. */
  function OperationOf(api: Json, operation: Json): Outcome<Node>
  {
    var path :- Index(api, "path");
    OperationBlock(path, operation)
  }

  function OperationIn(api: Json): Json -> Outcome<Node>
  {
    operation => OperationOf(api, operation)
  }

  /** The blocks of one API: one per entry of its `operations`. */
  function ApiBlocks(api: Json): Outcome<seq<Node>>
  {
    var operations :- Index(api, "operations");
    var elements :- Elements(operations);
    MapAll(OperationIn(api), elements)
  }

  /** The `try` body of `run` once the APIs are loaded. */
  function Listing(apis: Json): Outcome<seq<Node>>
  {
    var elements :- Elements(apis);
    ConcatAll(ApiBlocks, elements)
  }

  function ErrorBlockFor(url: string): Node
  {
    ErrorBlock([Paragraph([Text("Unable to process URL: "), Strong(url), Text(ErrorAdvice)])])
  }

  /** `run()` for the directive content `content`, `loaded` standing for
      what `processSwaggerURL` returns. The handler reads the URL again,
      so empty content raises out of it. */
  function RunV1(content: seq<string>, loaded: Outcome<Json>): (r: Outcome<seq<Node>>)
    ensures r.Raised? <==> content == []
    ensures content != [] && loaded.Raised? ==> r == Ok([ErrorBlockFor(content[0])])
    ensures content != [] && loaded.Ok? && Listing(loaded.value).Raised? ==> r == Ok([ErrorBlockFor(content[0])])
    ensures content != [] && loaded.Ok? && Listing(loaded.value).Ok? ==> r == Listing(loaded.value)
  {
    if content == [] then Raised
    else
      match (var apis :- loaded; Listing(apis))
      case Ok(entries) => Ok(entries)
      case Raised => Ok([ErrorBlockFor(content[0])])
  }

  // ---------------------------------------------------------------- the directive

  class SwaggerDocDirective {
    /** The directive's content lines; the first is the URL. */
    var content: seq<string>

    constructor(content: seq<string>)
      ensures this.content == content
    {
      this.content := content;
    }

    /** `run()`. */
    method Run(loaded: Outcome<Json>) returns (r: Outcome<seq<Node>>)
      ensures r == RunV1(content, loaded)
    {
      if |content| == 0 {
        return Raised;
      }
      var url := content[0];
      if loaded.Raised? {
        return Ok([ErrorBlockFor(url)]);
      }
      var elements := Elements(loaded.value);
      if elements.Raised? {
        return Ok([ErrorBlockFor(url)]);
      }
      var apis := elements.value;
      var entries: seq<Node> := [];
      for i := 0 to |apis|
        invariant ConcatAll(ApiBlocks, apis[..i]) == Ok(entries)
      {
        var blocks := MakeApiBlocks(apis[i]);
        if blocks.Raised? {
          ConcatAllRaises(ApiBlocks, apis, i);
          return Ok([ErrorBlockFor(url)]);
        }
        ConcatAllStep(ApiBlocks, apis, i, entries, blocks.value);
        entries := entries + blocks.value;
      }
      assert apis[..|apis|] == apis;
      return Ok(entries);
    }
  }

  /** The inner loop over one API's operations. */
  method MakeApiBlocks(api: Json) returns (r: Outcome<seq<Node>>)
    ensures r == ApiBlocks(api)
  {
    var operations := Index(api, "operations");
    if operations.Raised? {
      return Raised;
    }
    var elements := Elements(operations.value);
    if elements.Raised? {
      return Raised;
    }
    var items := elements.value;
    var blocks: seq<Node> := [];
    for j := 0 to |items|
      invariant MapAll(OperationIn(api), items[..j]) == Ok(blocks)
    {
      var path := Index(api, "path");
      if path.Raised? {
        MapAllRaises(OperationIn(api), items, j);
        return Raised;
      }
      var block := MakeOperation(path.value, items[j]);
      if block.Raised? {
        MapAllRaises(OperationIn(api), items, j);
        return Raised;
      }
      MapAllStep(OperationIn(api), items, j, blocks, block.value);
      blocks := blocks + [block.value];
    }
    assert items[..|items|] == items;
    return Ok(blocks);
  }

  /** `make_operation`. */
  method MakeOperation(path: Json, operation: Json) returns (r: Outcome<Node>)
    ensures r == OperationBlock(path, operation)
  {
    var httpMethod := Index(operation, "method");
    if httpMethod.Raised? || !httpMethod.value.Str? || !path.Str? {
      return Raised;
    }
    var title := Title(Upper(httpMethod.value.s) + " " + path.s);
    var summary := Index(operation, "summary");
    if summary.Raised? {
      return Raised;
    }
    var notes := GetOr(operation, "notes", Str("")).value;
    var consumed := ExpandValues.ExpandValues(GetOr(operation, "consumes", Str("")).value);
    if consumed.Raised? {
      return Raised;
    }
    var produced := ExpandValues.ExpandValues(GetOr(operation, "produces", Str("")).value);
    if produced.Raised? {
      return Raised;
    }
    var items := [Item("Notes: ", PyStr(notes)), Item("Consumes: ", consumed.value), Item("Produces: ", produced.value)];
    return Ok(Admonition([title, Paragraph([Text(PyStr(summary.value)), BulletList(items)])]));
  }

  // ---------------------------------------------------------------- properties

  /** The operation block is built exactly when the operation is a dict
      with a string `method` and a `summary`, the path is a string, and
      its `consumes` and `produces` (when present) expand. */
  lemma OperationBlockOk(path: Json, operation: Json)
    ensures OperationBlock(path, operation).Ok? <==>
              operation.Obj? && HasKey(operation.fields, "method") && Field(operation, "method").Str? &&
              path.Str? && HasKey(operation.fields, "summary") &&
              Expand(Default(operation, "consumes", Str(""))).Ok? && Expand(Default(operation, "produces", Str(""))).Ok?
  {
  }

  /** The title is the upper-cased method, a space and the path, and the
      list always holds the notes, the consumed types and the produced
      types, in that order, each as the text of its field (empty when
      the field is missing). */
  lemma OperationBlockContents(path: string, operation: Json)
    requires OperationBlock(Str(path), operation).Ok?
    ensures operation.Obj?
    ensures OperationBlock(Str(path), operation).value ==
              Admonition([Title(Upper(Field(operation, "method").s) + " " + path),
                          Paragraph([Text(PyStr(Field(operation, "summary"))),
                                     BulletList([Item("Notes: ", PyStr(Default(operation, "notes", Str("")))),
                                                 Item("Consumes: ", Expand(Default(operation, "consumes", Str(""))).value),
                                                 Item("Produces: ", Expand(Default(operation, "produces", Str(""))).value)])])])
  {
  }

  /** An operation without notes, consumes or produces still lists the
      three items, each empty. */
  lemma MissingFieldsListedEmpty(path: string, operation: Json)
    requires OperationBlock(Str(path), operation).Ok?
    requires !HasKey(operation.fields, "notes") && !HasKey(operation.fields, "consumes") && !HasKey(operation.fields, "produces")
    ensures OperationBlock(Str(path), operation).value.children[1] ==
              Paragraph([Text(PyStr(Field(operation, "summary"))),
                         BulletList([Item("Notes: ", ""), Item("Consumes: ", ""), Item("Produces: ", "")])])
  {
    OperationBlockContents(path, operation);
    assert Expand(Str("")) == Ok("") by {
      assert Elements(Str("")) == Ok([]);
    }
  }

  /** The consumed types are listed on one line, from which the types
      (when they contain no spaces) can be read back in order. */
  lemma ConsumesReadBack(path: string, operation: Json, types: seq<string>)
    requires OperationBlock(Str(path), operation).Ok?
    requires Field(operation, "consumes") == Arr(seq(|types|, i requires 0 <= i < |types| => Str(types[i])))
    requires forall i :: 0 <= i < |types| ==> ' ' !in types[i]
    ensures var items := OperationBlock(Str(path), operation).value.children[1].children[1].items;
            items[1] == Item("Consumes: ", Expanded(types)) &&
            Unexpand(Expanded(types)) == types
  {
    OperationBlockContents(path, operation);
    ExpandStrings(types);
    UnexpandExpanded(types);
  }

  /** Every operation of every API gives one block, in API order and then
      operation order; any API or operation that raises makes the whole
      listing raise. */
  lemma ListingBlocks(apis: seq<Json>)
    ensures Listing(Arr(apis)).Ok? <==> forall i :: 0 <= i < |apis| ==> ApiBlocks(apis[i]).Ok?
    ensures Listing(Arr(apis)).Ok? ==> Listing(Arr(apis)).value == Flatten(Runs(ApiBlocks, apis))
  {
    ConcatAllOk(ApiBlocks, apis);
  }

  /** The blocks of one API: one per operation, in order, each titled with
      the API's path. */
  lemma ApiBlocksPerOperation(api: Json)
    requires ApiBlocks(api).Ok?
    ensures api.Obj? && Elements(Field(api, "operations")).Ok?
    ensures var operations := Elements(Field(api, "operations")).value;
            var blocks := ApiBlocks(api).value;
            |blocks| == |operations| &&
            forall j :: 0 <= j < |operations| ==> OperationBlock(Field(api, "path"), operations[j]) == Ok(blocks[j])
  {
    var operations := Elements(Field(api, "operations")).value;
    MapAllOk(OperationIn(api), operations);
  }

  /** An API with no operations needs no `path`: the path is only read for
      an operation. */
  lemma NoOperationsNoPath(api: Json)
    requires api.Obj? && Field(api, "operations") == Arr([]) && !HasKey(api.fields, "path")
    ensures ApiBlocks(api) == Ok([])
  {
  }

  /** `run` never returns a partial listing: when any operation raises,
      the output is the error block alone. */
  lemma RunAllOrNothing(content: seq<string>, apis: seq<Json>, i: nat, j: nat)
    requires content != [] && i < |apis|
    requires Index(apis[i], "operations").Ok? && Elements(Index(apis[i], "operations").value).Ok?
    requires j < |Elements(Index(apis[i], "operations").value).value|
    requires OperationOf(apis[i], Elements(Index(apis[i], "operations").value).value[j]).Raised?
    ensures RunV1(content, Ok(Arr(apis))) == Ok([ErrorBlockFor(content[0])])
  {
    var operations := Elements(Index(apis[i], "operations").value).value;
    MapAllRaises(OperationIn(apis[i]), operations, j);
    ListingBlocks(apis);
  }

  /** An API whose `operations` is missing, or is not something a `for`
      loop can walk, makes the whole output the error block. */
  lemma MissingOperationsShowsError(content: seq<string>, apis: seq<Json>, i: nat)
    requires content != [] && i < |apis|
    requires Index(apis[i], "operations").Raised? || Elements(Index(apis[i], "operations").value).Raised?
    ensures RunV1(content, Ok(Arr(apis))) == Ok([ErrorBlockFor(content[0])])
  {
    ListingBlocks(apis);
  }

  /** A loaded document that cannot be iterated (`None`, when a file has
      no `apis`, or a number) gives the error block; so does a non-empty
      dict or string, whose keys or characters are strings and have no
      `operations`. */
  lemma UnlistableDocumentShowsError(content: seq<string>, apis: Json)
    requires content != []
    requires apis.Null? || apis.Num? || apis.Bool? ||
             (apis.Obj? && apis.fields != []) || (apis.Str? && apis.s != "")
    ensures RunV1(content, Ok(apis)) == Ok([ErrorBlockFor(content[0])])
  {
    if apis.Obj? || apis.Str? {
      var keys := Elements(apis).value;
      assert Index(keys[0], "operations").Raised?;
      ConcatAllOk(ApiBlocks, keys);
    }
  }
}
