# sphinx-swaggerdoc, modelled in Dafny

sphinx-swaggerdoc provides two Sphinx directives. Each directive reads a Swagger
document and turns it into docutils nodes.

- `swaggerv2doc` handles Swagger 2.0. Its `run` does four things:
  - It groups every operation under `paths` by the tags the document declares.
  - It renders one admonition per operation. The admonition holds a summary, a
    metadata list, a parameters table and a responses table.
  - It emits the Methods, Responses and Definitions sections.
  - It replaces all of that with a single error block if anything raises.
- `swaggerdoc` handles Swagger 1.2. Its `run` lists one admonition per operation
  of every API. On any failure it shows an error block instead.

The model is split into these files:

- `outcomes.dfy` (`Outcomes`): a Python evaluation is either a value or
  `Raised`. The module defines the two all-or-nothing list walks the directives
  perform: map every element, or concatenate a run of results per element.
- `pyjson.dfy` (`PyJson`): a decoded JSON/YAML document, and the Python
  operations the directives apply to it. These are `d.get`, `d[k]`, iteration,
  `in`, `str()` and `upper()`. Each is stated with its raising cases.
- `doctree.dfy` (`DocTree`): the docutils nodes the directives build, plus
  `create_table`, `cell`, `create_item` and `create_section`.
- `expand.dfy` (`ExpandValues`): `expand_values`, with a read-back round trip.
- `schema.dfy` (`SchemaDescriber`): `make_object`, `make_schema` and the
  property table, defined by mutual recursion on the schema.
- `blocks.dfy` (`SwaggerV2Blocks`): the Swagger 2.0 block builders. These are
  `make_parameters`, `make_properties`, `make_method_responses`, `make_method`,
  `make_response` and `make_definition`. Each is a specification function plus
  a method that builds the block row by row, proved to build exactly that
  block.
- `groups.dfy` (`TagGroups`): `group_tags`, as a fold over the declared tags
  and the operations.
- `v2.dfy` (`SwaggerV2`): the `SwaggerV2DocDirective` class. It holds
  `content` and the `api_desc` field that `run` overwrites, and has the methods
  `group_tags`, `check_tags` and `run`.
- `v1.dfy` (`SwaggerV1`): the `SwaggerDocDirective` class, `make_operation`
  and the Swagger 1.2 `run`.

The URL loader (`processSwaggerURL`) is a parameter of `Run`. That parameter,
`loaded`, is either the decoded document or `Raised`. Every exception the
directives can meet becomes `Raised`, because both `run` methods catch
everything alike. Python dictionaries are ordered member lists. Lookup of a
key that appears twice in such a list gives its last value, as `json.loads`
does. A dictionary `json.loads` builds never repeats a key (`DistinctKeys`);
for such a dictionary, iterating the members and looking each key up agree
(`DistinctKeysLookup`).

The model follows Python 3 semantics:
- Dictionaries keep insertion order.
- `str()` of a string is the string itself, with no `u''` prefix.

As written, `swaggerv2_doc.py` indents lines 27-30 with tabs under a
four-space `def`. Python 3 rejects that with a TabError, and the package's
`__init__.py` imports both directive modules, so the package loads only
under Python 2.

Several behaviours of the code differ from what one would expect, and the model
follows the code:

- A response row of an operation renders the Response object itself with
  `make_schema('', resp)`, not its `schema`. A response `{"schema": {...}}`
  therefore shows "No Data Returned".
- `run` discards the result of `check_tags`. A selected tag that names no group
  is silently ignored. When only unknown tags are selected, the Methods section
  is empty.
- In `swaggerv2_doc.py`, `processSwaggerURL` calls `load_swagger` without
  `self`. Under Python 2, the only interpreter that loads the module, the
  directive therefore always raises there and shows the error block. The
  model covers the directive as it would behave with a working loader.
  Loader failure is the `loaded == Raised` case.
- The strong node of the Swagger 2.0 error block has empty text, because its
  message is only passed as the raw source.
- An inline object schema with `properties`, used as a property type, makes
  `make_properties` raise. The reason is that `make_object` returns a list
  there, and a table cell cannot hold a list.
- With declared tags, every entry under a path must carry `tags`. That includes
  a path-level `parameters` list, so such a list raises.
- `swagger_doc.py` reads the API's `path` once per operation. An API with no
  operations therefore needs no `path`.

## Model

| member | source | states |
|---|---|---|
| ExpandValues.ExpandValues | sphinxcontrib/swaggerdoc/swagger_doc.py:46-51 | the loop yields every value followed by one space, in order; an empty list or empty string yields ''; any non-string element raises |
| ExpandValues.AsString | sphinxcontrib/swaggerdoc/swagger_doc.py:49 | `value + ' '` succeeds exactly for a string value |
| ExpandValues.ExpandStrings | sphinxcontrib/swaggerdoc/swagger_doc.py:46-51 | a list of strings expands to each string followed by one space, in order |
| ExpandValues.UnexpandExpanded | sphinxcontrib/swaggerdoc/swagger_doc.py:46-51 | round trip: values without spaces are recovered, in order, by splitting the expanded text at its spaces |
| PyJson.DistinctKeysLookup | sphinxcontrib/swaggerdoc/swaggerv2_doc.py:133 | in a dict without repeated keys, every member iterated by `items()` is the value its key looks up |
| DocTree.JsonCell | sphinxcontrib/swaggerdoc/swaggerv2_doc.py:65-69 | a string cell becomes a text paragraph with that text, and only a string does |
| DocTree.CellNode | sphinxcontrib/swaggerdoc/swaggerv2_doc.py:65-69 | a cell is placed in an entry exactly when it is text or a single node |
| DocTree.CreateTable | sphinxcontrib/swaggerdoc/swaggerv2_doc.py:74-96 | the table is built exactly when every body cell can be placed; it then has one width-1 column and one header entry per heading, and one row per body row holding each cell's entry in order |
| DocTree.SectionOf | sphinxcontrib/swaggerdoc/swaggerv2_doc.py:347-350 | a section whose id is the title, whose first child is the title, followed by the given children |
| SchemaDescriber.RefTarget | sphinxcontrib/swaggerdoc/swaggerv2_doc.py:151-161 | a `$ref` has a target exactly when it is a string starting with `#/responses/` or `#/definitions/`; any other reference raises |
| SchemaDescriber.EveryOccurrenceRemoved | sphinxcontrib/swaggerdoc/swaggerv2_doc.py:154-156 | `replace` removes every occurrence of the prefix, not only the leading one |
| SchemaDescriber.RefLinks | sphinxcontrib/swaggerdoc/swaggerv2_doc.py:190-200 | a reference becomes a paragraph holding an internal link to the target, labelled with the name and the target, from both make_schema and make_object |
| SchemaDescriber.ForeignRefRaises | sphinxcontrib/swaggerdoc/swaggerv2_doc.py:190-196 | a string reference outside the two prefixes raises in both functions |
| SchemaDescriber.SchemaWrapsObject | sphinxcontrib/swaggerdoc/swaggerv2_doc.py:201-203 | without a reference, make_schema succeeds exactly when make_object does, and wraps its node or nodes in one paragraph |
| SchemaDescriber.PrimitiveType | sphinxcontrib/swaggerdoc/swaggerv2_doc.py:163-165 | a boolean, string or integer schema is the name followed by its type |
| SchemaDescriber.ArrayType | sphinxcontrib/swaggerdoc/swaggerv2_doc.py:166-171 | an array renders its items with "array of " appended to the name, or "array of UNKNOWN type" without items |
| SchemaDescriber.ObjectType | sphinxcontrib/swaggerdoc/swaggerv2_doc.py:172-175 | an object with properties renders the properties table, with `required` defaulting to an empty list |
| SchemaDescriber.MapType | sphinxcontrib/swaggerdoc/swaggerv2_doc.py:176-181 | an object without properties is a map of strings to the additionalProperties type ("Unknown" when absent), a raw octet stream without additionalProperties, and raises on a non-dict or non-string type |
| SchemaDescriber.OtherType | sphinxcontrib/swaggerdoc/swaggerv2_doc.py:182-185 | no type gives "No Data Returned"; an unknown type gives "UNKNOWN type (3) - " and the schema's text |
| SchemaDescriber.ManyOnlyForProperties | sphinxcontrib/swaggerdoc/swaggerv2_doc.py:172-175 | make_object returns a list of nodes only for an inline object with properties |
| SchemaDescriber.DescribableNeverRaises | sphinxcontrib/swaggerdoc/swaggerv2_doc.py:150-205 | a schema built only from primitive types, arrays, maps, valid references and flat property tables never raises |
| SchemaDescriber.PropertyRowsOk | sphinxcontrib/swaggerdoc/swaggerv2_doc.py:133-141 | the rows are built exactly when every property's row is, one row per property, in order |
| SchemaDescriber.RowsNeverRaise | sphinxcontrib/swaggerdoc/swaggerv2_doc.py:129-147 | describable properties with a container `required` give rows whose every cell can be placed in the table |
| SchemaDescriber.RequiredMarkers | sphinxcontrib/swaggerdoc/swaggerv2_doc.py:129-147 | the block is the "Fields" heading and a table with one three-cell row per property: the name (starred exactly when it is in `required`), then the description |
| SchemaDescriber.RequiredListMarkers | sphinxcontrib/swaggerdoc/swaggerv2_doc.py:135-138 | with a list of required names, a property's name is starred exactly when the list holds it |
| SchemaDescriber.NestedPropertiesRaise | sphinxcontrib/swaggerdoc/swaggerv2_doc.py:140 | a property whose own type is an inline object with properties makes the whole table raise |
| SchemaDescriber.InlineObjectPropertyRaises | sphinxcontrib/swaggerdoc/swaggerv2_doc.py:129-147 | a concrete schema with an inline object property raises |
| SchemaDescriber.ArrayLabels | sphinxcontrib/swaggerdoc/swaggerv2_doc.py:166-169 | an array nested to any depth over a primitive type is that many nested paragraphs around "array of " repeated depth times, then the type |
| SchemaDescriber.RequiredIdExample | sphinxcontrib/swaggerdoc/swaggerv2_doc.py:189-205 | an object whose required integer `id` property renders as a Fields table with the row `id*`, '', `integer` |
| PyJson.Default | sphinxcontrib/swaggerdoc/swaggerv2_doc.py:104-110 | `d.get(key, default)`: the value when the key is present, the default only when it is absent |
| SwaggerV2Blocks.ParameterRowCells | sphinxcontrib/swaggerdoc/swaggerv2_doc.py:102-119 | each parameter row has four cells: the name (starred when required), the position, the description, then the type, else the schema's rendering, else ''; a missing field gives '' |
| SwaggerV2Blocks.ParameterRowRaises | sphinxcontrib/swaggerdoc/swaggerv2_doc.py:102-119 | a row raises exactly for a non-dict parameter, a required parameter whose name is not a string, or an untyped parameter whose schema raises |
| SwaggerV2Blocks.ParametersTable | sphinxcontrib/swaggerdoc/swaggerv2_doc.py:98-127 | the block is the "Parameters" heading and a four-column table with one row per parameter, in order, each cell that parameter's |
| SwaggerV2Blocks.RequiredParameterMarked | sphinxcontrib/swaggerdoc/swaggerv2_doc.py:104-108 | a parameter's name is starred exactly when its `required` is truthy |
| SwaggerV2Blocks.MakeParameterRow | sphinxcontrib/swaggerdoc/swaggerv2_doc.py:103-121 | the loop body builds exactly the parameter's row |
| SwaggerV2Blocks.MakeParameters | sphinxcontrib/swaggerdoc/swaggerv2_doc.py:98-127 | the loop builds exactly the parameters block, raising whenever a row raises |
| SwaggerV2Blocks.MakePropertyRow | sphinxcontrib/swaggerdoc/swaggerv2_doc.py:134-141 | the loop body builds exactly the property's row |
| SwaggerV2Blocks.MakeProperties | sphinxcontrib/swaggerdoc/swaggerv2_doc.py:129-147 | the loop builds exactly the properties block |
| SwaggerV2Blocks.EmptyResponses | sphinxcontrib/swaggerdoc/swaggerv2_doc.py:220-221 | the responses block is empty exactly when there are no responses |
| SwaggerV2Blocks.ResponsesTable | sphinxcontrib/swaggerdoc/swaggerv2_doc.py:207-231 | for some responses, the block is built exactly when every response renders, and is the "Responses" heading and a two-column table of code and rendering, one row per response, in order |
| SwaggerV2Blocks.ResponseTypeIgnoresSchema | sphinxcontrib/swaggerdoc/swaggerv2_doc.py:212-216 | a response object without its own type renders as "No Data Returned", whatever its schema |
| SwaggerV2Blocks.MakeMethodResponses | sphinxcontrib/swaggerdoc/swaggerv2_doc.py:207-231 | the loop builds exactly the responses block |
| SwaggerV2Blocks.MakeMetadataList | sphinxcontrib/swaggerdoc/swaggerv2_doc.py:304-311 | the loop lists the present description, consumes and produces fields, at most three items |
| SwaggerV2Blocks.MetadataOnlyPresent | sphinxcontrib/swaggerdoc/swaggerv2_doc.py:306-311 | one item per present field, description first, each titled with its label and a newline |
| SwaggerV2Blocks.MethodBlockShape | sphinxcontrib/swaggerdoc/swaggerv2_doc.py:297-325 | an operation block is one admonition titled with the upper-cased method and the path, holding the summary and metadata, then the parameters block when present, then the responses block when present |
| SwaggerV2Blocks.MakeMethod | sphinxcontrib/swaggerdoc/swaggerv2_doc.py:297-325 | builds exactly the operation block |
| SwaggerV2Blocks.SetField | sphinxcontrib/swaggerdoc/swaggerv2_doc.py:238 | setting a key changes that key's value only, and adds the key when absent |
| SwaggerV2Blocks.ResponseDescriptionShown | sphinxcontrib/swaggerdoc/swaggerv2_doc.py:233-259 | a response's description is copied into its schema and listed first |
| SwaggerV2Blocks.PayloadRow | sphinxcontrib/swaggerdoc/swaggerv2_doc.py:263-268 | the reusable response's single parameter row is Payload, Body, '' and the schema's rendering |
| SwaggerV2Blocks.MakeResponse | sphinxcontrib/swaggerdoc/swaggerv2_doc.py:233-271 | builds exactly the reusable response's section |
| SwaggerV2Blocks.MakeDefinition | sphinxcontrib/swaggerdoc/swaggerv2_doc.py:273-295 | builds exactly the definition's section |
| TagGroups.TagName | sphinxcontrib/swaggerdoc/swaggerv2_doc.py:331-332 | a declared tag gives a group name exactly when it is a dict with a hashable `name` |
| TagGroups.Declare | sphinxcontrib/swaggerdoc/swaggerv2_doc.py:332 | declaring a name keeps group names unique and adds it at the end only when new |
| TagGroups.SeedGroups | sphinxcontrib/swaggerdoc/swaggerv2_doc.py:330-332 | the declared groups have unique names |
| TagGroups.SeedGroupsFresh | sphinxcontrib/swaggerdoc/swaggerv2_doc.py:330-332 | the tags loop succeeds exactly when every tag has a name, and gives one empty group per distinct name in first-declaration order |
| TagGroups.DeclaredGroupNames | sphinxcontrib/swaggerdoc/swaggerv2_doc.py:330-335 | without declared names the only group is the default group '', else one empty group per distinct declared name |
| TagGroups.AppendTo | sphinxcontrib/swaggerdoc/swaggerv2_doc.py:340 | appending an entry never adds or removes a group |
| TagGroups.AppendTags | sphinxcontrib/swaggerdoc/swaggerv2_doc.py:342-343 | placing under tags keeps the group names |
| TagGroups.AppendTagsCopies | sphinxcontrib/swaggerdoc/swaggerv2_doc.py:342-343 | placing an entry under its tags succeeds exactly when every tag is hashable and names a group, and adds one copy per occurrence of the tag |
| TagGroups.Place | sphinxcontrib/swaggerdoc/swaggerv2_doc.py:339-343 | placing an entry keeps the group names |
| TagGroups.PlaceAll | sphinxcontrib/swaggerdoc/swaggerv2_doc.py:337-343 | placing all entries keeps the group names |
| TagGroups.PathOps | sphinxcontrib/swaggerdoc/swaggerv2_doc.py:337-338 | a path's entries are its (path, method type, details) triples in order, and exist exactly when the path maps to a dict |
| TagGroups.AllOperationsInOrder | sphinxcontrib/swaggerdoc/swaggerv2_doc.py:337-338 | the entries are those of every path in path order, and exist exactly when every path maps to a dict |
| TagGroups.PlaceAllTagged | sphinxcontrib/swaggerdoc/swaggerv2_doc.py:337-343 | without a default group, placement succeeds exactly when every entry's tags are known, and then each group holds the entries tagged with it |
| TagGroups.PlaceAllDefault | sphinxcontrib/swaggerdoc/swaggerv2_doc.py:339-340 | with a default group, every entry goes there, in order, whatever its tags |
| TagGroups.UndeclaredTagsDefault | sphinxcontrib/swaggerdoc/swaggerv2_doc.py:327-345 | a document that declares no tags yields the single default group holding every entry in order |
| TagGroups.DeclaredTagsGroups | sphinxcontrib/swaggerdoc/swaggerv2_doc.py:327-345 | with declared tags, grouping succeeds exactly when every entry's tags are declared, giving one group per distinct declared name holding the entries tagged with it |
| TagGroups.UntaggedEntryRaises | sphinxcontrib/swaggerdoc/swaggerv2_doc.py:342 | with declared tags, an entry without `tags` makes grouping raise |
| TagGroups.UndeclaredTagRaises | sphinxcontrib/swaggerdoc/swaggerv2_doc.py:343 | with declared tags, an entry tagged with an undeclared name makes grouping raise |
| SwaggerV2.ShownGroups | sphinxcontrib/swaggerdoc/swaggerv2_doc.py:378-379 | the groups shown are exactly those selected by name, or all of them when none is selected |
| SwaggerV2.TopLevel | sphinxcontrib/swaggerdoc/swaggerv2_doc.py:391 | `api_desc.get(key).items()` succeeds exactly when the document is a dict whose key maps to a dict |
| SwaggerV2.Body | sphinxcontrib/swaggerdoc/swaggerv2_doc.py:368-400 | when nothing raises, the output is exactly the Methods, Responses and Definitions sections |
| SwaggerV2.BodySections | sphinxcontrib/swaggerdoc/swaggerv2_doc.py:371-400 | the try body succeeds exactly when grouping and all three sections do, and is then the Methods, Responses and Definitions sections in that order |
| SwaggerV2.ResponsesSectionContents | sphinxcontrib/swaggerdoc/swaggerv2_doc.py:390-393 | the Responses section is built exactly when every reusable response renders, and then holds its title and one block per response, in order |
| SwaggerV2.DefinitionsSectionContents | sphinxcontrib/swaggerdoc/swaggerv2_doc.py:395-398 | the Definitions section is built exactly when every definition renders, and then holds its title and one block per definition, in order |
| SwaggerV2.RunV2 | sphinxcontrib/swaggerdoc/swaggerv2_doc.py:358-413 | empty content raises before the try; otherwise the output is exactly the try body's three sections when that succeeds, and the error block alone when loading or anything in the body raises |
| SwaggerV2.MissingResponsesShowsError | sphinxcontrib/swaggerdoc/swaggerv2_doc.py:391 | a document without a `responses` dict shows only the error block |
| SwaggerV2.RaisingResponseShowsError | sphinxcontrib/swaggerdoc/swaggerv2_doc.py:390-413 | one reusable response that raises replaces the whole output by the error block |
| SwaggerV2.UndeclaredTagShowsError | sphinxcontrib/swaggerdoc/swaggerv2_doc.py:342-413 | an operation tagged with an undeclared tag replaces the whole output by the error block |
| SwaggerV2.SwaggerV2DocDirective.constructor | sphinxcontrib/swaggerdoc/swaggerv2_doc.py:17-24 | a directive starts with its content and an empty `api_desc` |
| SwaggerV2.SwaggerV2DocDirective.GroupTags | sphinxcontrib/swaggerdoc/swaggerv2_doc.py:327-345 | the loops compute exactly the groups of the stored document |
| SwaggerV2.SwaggerV2DocDirective.CheckTags | sphinxcontrib/swaggerdoc/swaggerv2_doc.py:352-356 | an error message exists exactly when some selected tag names no group, and it names such a tag and the URL |
| SwaggerV2.SwaggerV2DocDirective.BuildEntries | sphinxcontrib/swaggerdoc/swaggerv2_doc.py:371-400 | the try body computes exactly the three sections of the stored document |
| SwaggerV2.SwaggerV2DocDirective.Run | sphinxcontrib/swaggerdoc/swaggerv2_doc.py:358-413 | run returns the directive's output, keeps its content, and stores the loaded document exactly when content is non-empty and loading succeeded |
| SwaggerV2.SeedTags | sphinxcontrib/swaggerdoc/swaggerv2_doc.py:331-332 | the tags loop builds exactly the declared groups |
| SwaggerV2.DeclareTags | sphinxcontrib/swaggerdoc/swaggerv2_doc.py:330-335 | the declaration step builds exactly the declared groups, with the default group when none is declared |
| SwaggerV2.PlaceOperation | sphinxcontrib/swaggerdoc/swaggerv2_doc.py:339-343 | the inner loop body places exactly one entry |
| SwaggerV2.PlacePath | sphinxcontrib/swaggerdoc/swaggerv2_doc.py:338-343 | the inner loop places exactly the entries of one path |
| SwaggerV2.MakeGroupSection | sphinxcontrib/swaggerdoc/swaggerv2_doc.py:380-387 | the loop builds exactly the group's section, skipping `$ref` and `parameters` entries |
| SwaggerV2.MakeMethodsSection | sphinxcontrib/swaggerdoc/swaggerv2_doc.py:377-388 | the loop builds exactly the Methods section of the shown groups |
| SwaggerV2.MakeResponsesSection | sphinxcontrib/swaggerdoc/swaggerv2_doc.py:390-393 | the loop builds exactly the Responses section |
| SwaggerV2.MakeDefinitionsSection | sphinxcontrib/swaggerdoc/swaggerv2_doc.py:395-398 | the loop builds exactly the Definitions section |
| SwaggerV2.NoSelectionShowsAll | sphinxcontrib/swaggerdoc/swaggerv2_doc.py:379 | selecting no tag shows every group, in order |
| SwaggerV2.UnknownSelectionIgnored | sphinxcontrib/swaggerdoc/swaggerv2_doc.py:373-379 | adding a selected tag that names no group changes nothing shown |
| SwaggerV2.UnknownSelectionShowsNone | sphinxcontrib/swaggerdoc/swaggerv2_doc.py:373-388 | selecting only unknown tags shows no group |
| SwaggerV2.RunIgnoresUnknownTag | sphinxcontrib/swaggerdoc/swaggerv2_doc.py:373-379 | the directive's whole output is unchanged by an extra unknown selected tag |
| SwaggerV2.SkippedEntryRendersNothing | sphinxcontrib/swaggerdoc/swaggerv2_doc.py:382-385 | a `$ref` or `parameters` entry contributes nothing to its group's section |
| SwaggerV2.BodyMethods | sphinxcontrib/swaggerdoc/swaggerv2_doc.py:375-388 | the first section is the Methods section of the grouped document |
| SwaggerV2.UntaggedDocument | sphinxcontrib/swaggerdoc/swaggerv2_doc.py:334-388 | a document with no declared tags renders one untitled group holding every operation |
| SwaggerV2.SingleGroupMethods | sphinxcontrib/swaggerdoc/swaggerv2_doc.py:377-388 | with one group and no selection, the Methods section holds exactly that group's section |
| SwaggerV1.RunV1 | sphinxcontrib/swaggerdoc/swagger_doc.py:70-89 | empty content raises out of the handler; otherwise the output is exactly the listing when loading and listing succeed, and the error block, with the URL in strong text, when either raises |
| SwaggerV1.SwaggerDocDirective.Run | sphinxcontrib/swaggerdoc/swagger_doc.py:70-89 | the loops compute exactly the directive's output |
| SwaggerV1.MakeApiBlocks | sphinxcontrib/swaggerdoc/swagger_doc.py:77-78 | the inner loop builds exactly the blocks of one API |
| SwaggerV1.MakeOperation | sphinxcontrib/swaggerdoc/swagger_doc.py:53-68 | builds exactly the operation block |
| SwaggerV1.OperationBlockOk | sphinxcontrib/swaggerdoc/swagger_doc.py:53-68 | an operation renders exactly when it has a string method and a summary, the path is a string, and its consumes and produces expand |
| SwaggerV1.OperationBlockContents | sphinxcontrib/swaggerdoc/swagger_doc.py:53-68 | the block is an admonition titled with the upper-cased method and the path, holding the summary and the Notes, Consumes and Produces items in that order |
| SwaggerV1.MissingFieldsListedEmpty | sphinxcontrib/swaggerdoc/swagger_doc.py:61-63 | missing notes, consumes and produces still give their three items, each empty |
| SwaggerV1.ConsumesReadBack | sphinxcontrib/swaggerdoc/swagger_doc.py:62 | the Consumes item lists the consumed types from which, when they hold no spaces, the types are read back in order |
| SwaggerV1.ListingBlocks | sphinxcontrib/swaggerdoc/swagger_doc.py:76-80 | the listing succeeds exactly when every API does, and is their blocks in API order |
| SwaggerV1.ApiBlocksPerOperation | sphinxcontrib/swaggerdoc/swagger_doc.py:77-78 | an API gives one block per operation, in order, each rendered with the API's path |
| SwaggerV1.NoOperationsNoPath | sphinxcontrib/swaggerdoc/swagger_doc.py:77-78 | an API without operations needs no path |
| SwaggerV1.RunAllOrNothing | sphinxcontrib/swaggerdoc/swagger_doc.py:71-89 | any operation that raises replaces the whole output by the error block |
| SwaggerV1.MissingOperationsShowsError | sphinxcontrib/swaggerdoc/swagger_doc.py:77-89 | an API whose `operations` is missing or not iterable gives the error block alone |
| SwaggerV1.UnlistableDocumentShowsError | sphinxcontrib/swaggerdoc/swagger_doc.py:72-89 | a loaded document that is `None`, a number or a boolean, or a non-empty dict or string, gives the error block alone |

## Left out

- `processSwaggerURL` and `load_swagger` are left out. They cover URL parsing, file and HTTP reads, and JSON/YAML decoding, and they are I/O. `Run` takes their outcome as a parameter instead.
- The `print` and `traceback.print_exc` calls in the error handlers write to the console only, so they are left out.
- The docutils reporter is left out. `run` discards the message `check_tags` makes with it.
- `setup` and directive registration are left out. They are Sphinx plumbing.
- The node attributes that do not affect content are left out: raw sources, `postpone`/`internal` flags and docutils parent links. A failing `setup_child` is kept: a cell holding a list or a non-node raises.
- Exception kinds are left out, because both `run` methods treat every exception alike.
- Repeated keys inside one dict are not excluded. `json.loads` never produces them, but the model's member lists may hold them, and then the directives' loops visit such a key once per occurrence. `DistinctKeys` states the well-formed case, and every lemma holds with or without it.
- Floating-point numbers are left out. Numbers are integers.
- Python's equality between `True` and `1` when they are used as dictionary keys or tags is left out.
- Python 2 behaviour is left out: its unordered dictionaries, and the `u''` prefixes `str()` gives inside containers. Dictionaries keep insertion order, as in Python 3.7 and later.
- `create_item` and `create_section` have no rows of their own. They are the `Item` and `SectionOf` node shapes.
- The dead `expand_values` in `swaggerv2_doc.py` has no separate model. It is identical to the `swagger_doc.py` one, which `ExpandValues` models.
- The directives' methods that compute on values are module-level functions and methods. Only `run`, `group_tags`, `check_tags` and the constructor live in the classes, since only those use the directive's state.
- SwaggerV2Blocks.MakeResponse: the method does not write the description into the caller's schema dictionary (aliasing). It works on a copy, with the same rendered output.
- SwaggerV2.SwaggerV2DocDirective.CheckTags: the method may name any unknown selected tag, because Python's set order is unspecified. The source names the first element of the difference set.
- PyJson.Upper: upper-cases ASCII letters only, not Unicode case mapping.
- PyJson.Repr: `str()` of a dict or list uses single quotes without escaping. Python's full `repr` escaping is not modelled.
- SwaggerV2.GroupSection: for a non-string group name, the section id is the name's text. Docutils would keep the raw value.
