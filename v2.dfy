/** The Swagger 2.0 directive: `run` documents the operations group by
    group, then the shared responses and the definitions, or shows an
    error block when any of that raises. */
module SwaggerV2 {
  import opened Outcomes
  import opened PyJson
  import opened DocTree
  import opened SwaggerV2Blocks
  import opened TagGroups

  /** The method types `run` skips: they are entries of a path item that
      are not operations. */
  const SkippedTypes := ["$ref", "parameters"]

  // ---------------------------------------------------------------- what run produces

  /** The blocks one entry of a group contributes. */
  function EntryBlocks(op: Operation): Outcome<seq<Node>>
  {
    if op.methodType in SkippedTypes then Ok([]) else MethodBlock(op.path, op.methodType, op.details)
  }

  /** The section of one group, titled with the tag's text. */
  function GroupSection(g: Group): Outcome<Node>
  {
    var blocks :- ConcatAll(EntryBlocks, g.entries);
    Ok(SectionOf(PyStr(g.name), blocks))
  }

  /** `tag_name in selected_tags or len(selected_tags) == 0`: the content
      lines are strings, so only a string tag can be selected. */
  predicate Shown(selected: seq<string>, name: Json)
  {
    (name.Str? && name.s in selected) || |selected| == 0
  }

  /** The groups `run` renders, in group order. */
  function ShownGroups(groups: seq<Group>, selected: seq<string>): (r: seq<Group>)
    ensures forall g :: g in r <==> g in groups && Shown(selected, g.name)
  {
    if groups == [] then []
    else
      var init := groups[..|groups| - 1];
      var last := groups[|groups| - 1];
      assert forall g :: g in groups <==> g in init || g == last;
      ShownGroups(init, selected) + (if Shown(selected, last.name) then [last] else [])
  }

  function MethodsSection(groups: seq<Group>, selected: seq<string>): Outcome<Node>
  {
    var sections :- MapAll(GroupSection, ShownGroups(groups, selected));
    Ok(SectionOf("Methods", sections))
  }

  function ResponseOf(m: Member): Outcome<Node>
  {
    ResponseBlock(m.key, m.val)
  }

  function DefinitionOf(m: Member): Outcome<Node>
  {
    DefinitionBlock(m.key, m.val)
  }

  /** `api_desc.get(key).items()`: the key is mandatory and must hold a
      dict. */
  function TopLevel(desc: Json, key: string): (r: Outcome<seq<Member>>)
    ensures r.Ok? <==> desc.Obj? && Field(desc, key).Obj?
    ensures r.Ok? ==> r.value == Field(desc, key).fields
  {
    var d :- Get(desc, key);
    if d.Obj? then Ok(d.fields) else Raised
  }

  function ResponsesSection(desc: Json): Outcome<Node>
  {
    var responses :- TopLevel(desc, "responses");
    var blocks :- MapAll(ResponseOf, responses);
    Ok(SectionOf("Responses", blocks))
  }

  function DefinitionsSection(desc: Json): Outcome<Node>
  {
    var definitions :- TopLevel(desc, "definitions");
    var blocks :- MapAll(DefinitionOf, definitions);
    Ok(SectionOf("Definitions", blocks))
  }

  /** The body of the `try` in `run`, once the document is loaded. */
  function Body(desc: Json, selected: seq<string>): (r: Outcome<seq<Node>>)
    ensures r.Ok? ==> |r.value| == 3 && r.value[0].Section? && r.value[0].id == "Methods" &&
                      r.value[1].Section? && r.value[1].id == "Responses" &&
                      r.value[2].Section? && r.value[2].id == "Definitions"
  {
    var groups :- GroupsOf(desc);
    var methods :- MethodsSection(groups, selected);
    var responses :- ResponsesSection(desc);
    var definitions :- DefinitionsSection(desc);
    Ok([methods, responses, definitions])
  }

  /** Loading the document is part of the `try`. */
  function Attempt(loaded: Outcome<Json>, selected: seq<string>): Outcome<seq<Node>>
  {
    var desc :- loaded;
    Body(desc, selected)
  }

  /** The error node `run` returns when the `try` raises; its second child
      is a `strong` whose only argument is taken as raw source, so it
      shows no text. */
  function ErrorBlockFor(url: string): Node
  {
    ErrorBlock([Paragraph([Text("Unable to process URL: " + url + ErrorAdvice)]), Strong("")])
  }

  /** `run()` for the directive content `content` (the URL, then the
      selected tags), `loaded` standing for what loading the URL gives.
      Reading the URL happens before the `try`, so empty content raises;
      otherwise the result is either the three sections or the error block
      alone. */
  function RunV2(content: seq<string>, loaded: Outcome<Json>): (r: Outcome<seq<Node>>)
    ensures r.Raised? <==> content == []
    ensures r.Ok? ==> r.value == [ErrorBlockFor(content[0])] ||
                      (|r.value| == 3 && r.value[0].Section? && r.value[0].id == "Methods" &&
                       r.value[1].Section? && r.value[1].id == "Responses" &&
                       r.value[2].Section? && r.value[2].id == "Definitions")
    ensures content != [] && loaded.Raised? ==> r == Ok([ErrorBlockFor(content[0])])
    ensures content != [] && loaded.Ok? && Body(loaded.value, content[1..]).Raised? ==>
              r == Ok([ErrorBlockFor(content[0])])
    ensures content != [] && loaded.Ok? && Body(loaded.value, content[1..]).Ok? ==>
              r == Body(loaded.value, content[1..])
  {
    if content == [] then Raised
    else
      match Attempt(loaded, content[1..])
      case Ok(entries) => Ok(entries)
      case Raised => Ok([ErrorBlockFor(content[0])])
  }

  /** The message `check_tags` builds for a selected tag that names no
      group. */
  function TagError(tag: string, url: string): Node
  {
    SystemMessage("Error. Tag '" + tag + "' not found in Swagger URL " + url + ".")
  }

  // ---------------------------------------------------------------- the directive

  class SwaggerV2DocDirective {
    /** The directive's content lines. */
    var content: seq<string>
    /** The loaded document; the class attribute starts as an empty list. */
    var apiDesc: Json

    constructor(content: seq<string>)
      ensures this.content == content && apiDesc == Arr([])
    {
      this.content := content;
      apiDesc := Arr([]);
    }

    /** `group_tags()`. */
    method GroupTags() returns (r: Outcome<seq<Group>>)
      ensures r == GroupsOf(apiDesc)
    {
      var declared := DeclareTags(apiDesc);
      if declared.Raised? {
        return Raised;
      }
      var paths := Index(apiDesc, "paths");
      if paths.Raised? || !paths.value.Obj? {
        return Raised;
      }
      var items := paths.value.fields;
      assert AllOperations(apiDesc) == OpsOf(items);
      var groups := declared.value;
      ghost var ops: seq<Operation> := [];
      for i := 0 to |items|
        invariant OpsOf(items[..i]) == Ok(ops)
        invariant PlaceAll(declared.value, ops) == Ok(groups)
      {
        if !items[i].val.Obj? {
          ConcatAllRaises(PathOps, items, i);
          return Raised;
        }
        var next := PlacePath(groups, items[i]);
        ghost var run := PathOps(items[i]).value;
        PlaceAllAppend(declared.value, ops, run);
        if next.Raised? {
          PlacementRaises(apiDesc, declared.value, items, i, ops);
          return Raised;
        }
        ConcatAllStep(PathOps, items, i, ops, run);
        groups := next.value;
        ops := ops + run;
      }
      assert items[..|items|] == items;
      return Ok(groups);
    }

    /** `check_tags(selected_tags, tags, api_url)`: an error message naming
        one selected tag that is not among `tags` (which one is left open,
        as the order of a set is), or nothing when there is none. */
    method CheckTags(selected: seq<string>, tags: seq<Json>, url: string) returns (r: Option<Node>)
      ensures r.Some? <==> exists t :: t in selected && Str(t) !in tags
      ensures r.Some? ==> exists t :: t in selected && Str(t) !in tags && r.value == TagError(t, url)
    {
      var invalid := set t | t in selected && Str(t) !in tags;
      if |invalid| > 0 {
        var t :| t in invalid;
        return Some(TagError(t, url));
      }
      assert forall t :: t in selected && Str(t) !in tags ==> t in invalid;
      return None;
    }

    /** The body of the `try` in `run`, with the document loaded. The
        message from `check_tags` is computed and then dropped. */
    method BuildEntries(url: string, selected: seq<string>) returns (r: Outcome<seq<Node>>)
      ensures r == Body(apiDesc, selected)
    {
      var grouped := GroupTags();
      if grouped.Raised? {
        return Raised;
      }
      var groups := grouped.value;
      var _ := CheckTags(selected, Names(groups), url);
      var methods := MakeMethodsSection(groups, selected);
      if methods.Raised? {
        return Raised;
      }
      var responses := MakeResponsesSection(apiDesc);
      if responses.Raised? {
        return Raised;
      }
      var definitions := MakeDefinitionsSection(apiDesc);
      if definitions.Raised? {
        return Raised;
      }
      return Ok([methods.value, responses.value, definitions.value]);
    }

    /** `run()`, with `loaded` standing for what loading the URL gives:
        the document replaces `api_desc` only when it loads. */
    method Run(loaded: Outcome<Json>) returns (r: Outcome<seq<Node>>)
      modifies this
      ensures content == old(content)
      ensures r == RunV2(content, loaded)
      ensures apiDesc == if content != [] && loaded.Ok? then loaded.value else old(apiDesc)
    {
      if |content| == 0 {
        return Raised;
      }
      var url := content[0];
      var selected := if |content| > 1 then content[1..] else [];
      assert selected == content[1..];
      if loaded.Raised? {
        return Ok([ErrorBlockFor(url)]);
      }
      apiDesc := loaded.value;
      var entries := BuildEntries(url, selected);
      if entries.Raised? {
        return Ok([ErrorBlockFor(url)]);
      }
      return entries;
    }
  }

  // ---------------------------------------------------------------- loop bodies

  /** The loop over `api_desc['tags']`: `groups[tag['name']] = []`. */
  method SeedTags(items: seq<Json>) returns (r: Outcome<seq<Group>>)
    ensures r == SeedGroups(items)
  {
    var groups: seq<Group> := [];
    for i := 0 to |items|
      invariant SeedGroups(items[..i]) == Ok(groups)
    {
      var name := Index(items[i], "name");
      if name.Raised? || !Hashable(name.value) {
        SeedGroupsFresh(items);
        MapAllRaises(TagName, items, i);
        return Raised;
      }
      assert items[..i + 1][..i] == items[..i];
      groups := Declare(groups, name.value);
    }
    assert items[..|items|] == items;
    return Ok(groups);
  }

  /** The declared tags' groups, or the default group alone. */
  method DeclareTags(desc: Json) returns (r: Outcome<seq<Group>>)
    ensures r == DeclaredGroups(desc)
  {
    var declared := Contains(desc, "tags");
    if declared.Raised? {
      return Raised;
    }
    var groups: seq<Group> := [];
    if declared.value {
      var tags := Index(desc, "tags");
      if tags.Raised? {
        return Raised;
      }
      var elements := Elements(tags.value);
      if elements.Raised? {
        return Raised;
      }
      var seeded := SeedTags(elements.value);
      if seeded.Raised? {
        return Raised;
      }
      groups := seeded.value;
    }
    if |groups| == 0 {
      groups := [Group(DefaultGroup, [])];
    }
    return Ok(groups);
  }

  /** Placing one entry: in the default group when there is one, else in
      the group of each of its tags. */
  method PlaceOperation(groups: seq<Group>, op: Operation) returns (r: Outcome<seq<Group>>)
    ensures r == Place(groups, op)
  {
    if DefaultGroup in Names(groups) {
      return Ok(AppendTo(groups, DefaultGroup, op));
    }
    var tags := Index(op.details, "tags");
    if tags.Raised? {
      return Raised;
    }
    var elements := Elements(tags.value);
    if elements.Raised? {
      return Raised;
    }
    var items := elements.value;
    var placed := groups;
    for i := 0 to |items|
      invariant AppendTags(groups, items[..i], op) == Ok(placed)
    {
      var tag := items[i];
      if !Hashable(tag) || tag !in Names(placed) {
        AppendTagsCopies(groups, items, op);
        return Raised;
      }
      assert items[..i + 1][..i] == items[..i];
      placed := AppendTo(placed, tag, op);
    }
    assert items[..|items|] == items;
    return Ok(placed);
  }

  /** The inner loop over one path's methods. */
  method PlacePath(groups: seq<Group>, path: Member) returns (r: Outcome<seq<Group>>)
    requires path.val.Obj?
    ensures r == PlaceAll(groups, PathOps(path).value)
  {
    var methods := path.val.fields;
    ghost var run := PathOps(path).value;
    var placed := groups;
    for k := 0 to |methods|
      invariant PlaceAll(groups, run[..k]) == Ok(placed)
    {
      var op := Operation(path.key, methods[k].key, methods[k].val);
      assert op == run[k];
      var next := PlaceOperation(placed, op);
      if next.Raised? {
        PlaceAllRaisesAt(groups, run, k, placed);
        return Raised;
      }
      PlaceAllStep(groups, run, k, placed);
      placed := next.value;
    }
    assert run[..|run|] == run;
    return Ok(placed);
  }

  /** A path whose entries cannot all be placed makes the whole grouping
      raise, whatever the later paths hold. */
  lemma PlacementRaises(desc: Json, declared: seq<Group>, items: seq<Member>, i: nat, ops: seq<Operation>)
    requires DeclaredGroups(desc) == Ok(declared)
    requires desc.Obj? && Field(desc, "paths") == Obj(items)
    requires i < |items| && OpsOf(items[..i]) == Ok(ops) && PathOps(items[i]).Ok?
    requires PlaceAll(declared, ops + PathOps(items[i]).value).Raised?
    ensures GroupsOf(desc).Raised?
  {
    var run := PathOps(items[i]).value;
    assert items[..i + 1] == items[..i] + [items[i]];
    ConcatAllSnoc(PathOps, items[..i], items[i]);
    assert items == items[..i + 1] + items[i + 1..];
    ConcatAllAppend(PathOps, items[..i + 1], items[i + 1..]);
    assert AllOperations(desc) == OpsOf(items);
    if OpsOf(items).Ok? {
      var rest := OpsOf(items[i + 1..]).value;
      assert OpsOf(items).value == (ops + run) + rest;
      PlaceAllPrefixRaises(declared, ops + run, rest);
    }
  }

  /** One group's section: the blocks of its operations, skipping the
      `$ref` and `parameters` entries. */
  method MakeGroupSection(g: Group) returns (r: Outcome<Node>)
    ensures r == GroupSection(g)
  {
    var blocks: seq<Node> := [];
    for k := 0 to |g.entries|
      invariant ConcatAll(EntryBlocks, g.entries[..k]) == Ok(blocks)
    {
      var op := g.entries[k];
      if op.methodType in SkippedTypes {
        ConcatAllStep(EntryBlocks, g.entries, k, blocks, []);
        assert blocks + [] == blocks;
        continue;
      }
      var made := MakeMethod(op.path, op.methodType, op.details);
      if made.Raised? {
        ConcatAllRaises(EntryBlocks, g.entries, k);
        return Raised;
      }
      ConcatAllStep(EntryBlocks, g.entries, k, blocks, made.value);
      blocks := blocks + made.value;
    }
    assert g.entries[..|g.entries|] == g.entries;
    return Ok(SectionOf(PyStr(g.name), blocks));
  }

  /** The `Methods` section: one section per shown group. */
  method MakeMethodsSection(groups: seq<Group>, selected: seq<string>) returns (r: Outcome<Node>)
    ensures r == MethodsSection(groups, selected)
  {
    var sections: seq<Node> := [];
    ghost var shown: seq<Group> := [];
    for i := 0 to |groups|
      invariant shown == ShownGroups(groups[..i], selected)
      invariant MapAll(GroupSection, shown) == Ok(sections)
    {
      var g := groups[i];
      assert groups[..i + 1][..i] == groups[..i];
      if (g.name.Str? && g.name.s in selected) || |selected| == 0 {
        var section := MakeGroupSection(g);
        if section.Raised? {
          MapAllMemberRaises(GroupSection, ShownGroups(groups, selected), g);
          return Raised;
        }
        MapAllSnoc(GroupSection, shown, g);
        sections := sections + [section.value];
        shown := shown + [g];
      }
    }
    assert groups[..|groups|] == groups;
    return Ok(SectionOf("Methods", sections));
  }

  /** The `Responses` section: one block per shared response. */
  method MakeResponsesSection(desc: Json) returns (r: Outcome<Node>)
    ensures r == ResponsesSection(desc)
  {
    var responses := TopLevel(desc, "responses");
    if responses.Raised? {
      return Raised;
    }
    var items := responses.value;
    var blocks: seq<Node> := [];
    for i := 0 to |items|
      invariant MapAll(ResponseOf, items[..i]) == Ok(blocks)
    {
      var block := MakeResponse(items[i].key, items[i].val);
      if block.Raised? {
        MapAllRaises(ResponseOf, items, i);
        return Raised;
      }
      MapAllStep(ResponseOf, items, i, blocks, block.value);
      blocks := blocks + [block.value];
    }
    assert items[..|items|] == items;
    return Ok(SectionOf("Responses", blocks));
  }

  /** The `Definitions` section: one block per definition. */
  method MakeDefinitionsSection(desc: Json) returns (r: Outcome<Node>)
    ensures r == DefinitionsSection(desc)
  {
    var definitions := TopLevel(desc, "definitions");
    if definitions.Raised? {
      return Raised;
    }
    var items := definitions.value;
    var blocks: seq<Node> := [];
    for i := 0 to |items|
      invariant MapAll(DefinitionOf, items[..i]) == Ok(blocks)
    {
      var block := MakeDefinition(items[i].key, items[i].val);
      if block.Raised? {
        MapAllRaises(DefinitionOf, items, i);
        return Raised;
      }
      MapAllStep(DefinitionOf, items, i, blocks, block.value);
      blocks := blocks + [block.value];
    }
    assert items[..|items|] == items;
    return Ok(SectionOf("Definitions", blocks));
  }

  // ---------------------------------------------------------------- properties

  /** With no tags selected every group is rendered. */
  lemma {:induction false} NoSelectionShowsAll(groups: seq<Group>)
    ensures ShownGroups(groups, []) == groups
  {
    if groups != [] {
      NoSelectionShowsAll(groups[..|groups| - 1]);
    }
  }

  /** Selecting one more tag that names no group changes nothing, once
      some tag is selected: `check_tags`'s verdict is never acted on. */
  lemma {:induction false} UnknownSelectionIgnored(groups: seq<Group>, selected: seq<string>, tag: string)
    requires selected != [] && Str(tag) !in Names(groups)
    ensures ShownGroups(groups, selected + [tag]) == ShownGroups(groups, selected)
  {
    if groups != [] {
      var init := groups[..|groups| - 1];
      assert Names(init) == Names(groups)[..|groups| - 1];
      UnknownSelectionIgnored(init, selected, tag);
      assert groups[|groups| - 1].name in Names(groups);
    }
  }

  /** When every selected tag names no group, no group is rendered: the
      `Methods` section comes out empty rather than as an error. */
  lemma {:induction false} UnknownSelectionShowsNone(groups: seq<Group>, selected: seq<string>)
    requires selected != [] && forall t :: t in selected ==> Str(t) !in Names(groups)
    ensures ShownGroups(groups, selected) == []
  {
    if groups != [] {
      var init := groups[..|groups| - 1];
      assert Names(init) == Names(groups)[..|groups| - 1];
      UnknownSelectionShowsNone(init, selected);
      assert groups[|groups| - 1].name in Names(groups);
    }
  }

  /** The whole directive output ignores a selected tag that names no
      group, once some tag is selected. */
  lemma RunIgnoresUnknownTag(url: string, selected: seq<string>, tag: string, desc: Json)
    requires GroupsOf(desc).Ok? && selected != [] && Str(tag) !in Names(GroupsOf(desc).value)
    ensures RunV2([url] + (selected + [tag]), Ok(desc)) == RunV2([url] + selected, Ok(desc))
  {
    var groups := GroupsOf(desc).value;
    UnknownSelectionIgnored(groups, selected, tag);
    SameMethodsSameBody(desc, selected + [tag], selected);
    SameBodySameRun(url, selected + [tag], selected, desc);
  }

  lemma SameMethodsSameBody(desc: Json, selected: seq<string>, other: seq<string>)
    requires GroupsOf(desc).Ok?
    requires ShownGroups(GroupsOf(desc).value, selected) == ShownGroups(GroupsOf(desc).value, other)
    ensures Body(desc, selected) == Body(desc, other)
  {
    var groups := GroupsOf(desc).value;
    assert MethodsSection(groups, selected) == MethodsSection(groups, other);
  }

  lemma SameBodySameRun(url: string, selected: seq<string>, other: seq<string>, desc: Json)
    requires Body(desc, selected) == Body(desc, other)
    ensures RunV2([url] + selected, Ok(desc)) == RunV2([url] + other, Ok(desc))
  {
    assert ([url] + selected)[1..] == selected;
    assert ([url] + other)[1..] == other;
    assert Attempt(Ok(desc), selected) == Attempt(Ok(desc), other);
  }

  /** A `$ref` or `parameters` entry adds nothing to its group's section,
      wherever it sits. */
  lemma SkippedEntryRendersNothing(name: Json, before: seq<Operation>, op: Operation, after: seq<Operation>)
    requires op.methodType in SkippedTypes
    ensures GroupSection(Group(name, before + [op] + after)) == GroupSection(Group(name, before + after))
  {
    ConcatAllSnoc(EntryBlocks, before, op);
    ConcatAllAppend(EntryBlocks, before + [op], after);
    ConcatAllAppend(EntryBlocks, before, after);
    if ConcatAll(EntryBlocks, before).Ok? {
      assert ConcatAll(EntryBlocks, before).value + [] == ConcatAll(EntryBlocks, before).value;
    }
  }

  /** The first section of the output is the `Methods` section of the
      document's groups. */
  lemma BodyMethods(desc: Json, selected: seq<string>)
    requires Body(desc, selected).Ok?
    ensures GroupsOf(desc).Ok? && MethodsSection(GroupsOf(desc).value, selected).Ok?
    ensures Body(desc, selected).value[0] == MethodsSection(GroupsOf(desc).value, selected).value
  {
  }

  /** A document that declares no tags is rendered, with no tag selected,
      as one untitled group holding every operation. */
  lemma UntaggedDocument(desc: Json)
    requires DeclaredNames(desc) == Ok([]) && AllOperations(desc).Ok?
    requires Body(desc, []).Ok?
    ensures var g := Group(DefaultGroup, AllOperations(desc).value);
            GroupSection(g).Ok? && Body(desc, []).value[0] == SectionOf("Methods", [GroupSection(g).value])
  {
    UndeclaredTagsDefault(desc);
    var g := Group(DefaultGroup, AllOperations(desc).value);
    BodyMethods(desc, []);
    SingleGroupMethods(g);
  }

  lemma SingleGroupMethods(g: Group)
    requires MethodsSection([g], []).Ok?
    ensures GroupSection(g).Ok? && MethodsSection([g], []).value == SectionOf("Methods", [GroupSection(g).value])
  {
    NoSelectionShowsAll([g]);
    assert [] + [g] == [g];
    MapAllSnoc(GroupSection, [], g);
  }

  /** The `try` body succeeds exactly when grouping, the Methods section,
      the Responses section and the Definitions section all do, and then
      yields those three sections in that order. */
  lemma BodySections(desc: Json, selected: seq<string>)
    ensures Body(desc, selected).Ok? <==>
              GroupsOf(desc).Ok? && MethodsSection(GroupsOf(desc).value, selected).Ok? &&
              ResponsesSection(desc).Ok? && DefinitionsSection(desc).Ok?
    ensures Body(desc, selected).Ok? ==>
              Body(desc, selected).value ==
                [MethodsSection(GroupsOf(desc).value, selected).value,
                 ResponsesSection(desc).value, DefinitionsSection(desc).value]
  {
  }

  /** The Responses section holds one block per entry of the document's
      `responses`, in order, and is built exactly when every one of them
      is. */
  lemma ResponsesSectionContents(desc: Json)
    requires desc.Obj? && Field(desc, "responses").Obj?
    ensures var rs := Field(desc, "responses").fields;
            ResponsesSection(desc).Ok? <==> forall i :: 0 <= i < |rs| ==> ResponseBlock(rs[i].key, rs[i].val).Ok?
    ensures var rs := Field(desc, "responses").fields;
            ResponsesSection(desc).Ok? ==>
              var s := ResponsesSection(desc).value;
              s.Section? && s.id == "Responses" && |s.children| == |rs| + 1 && s.children[0] == Title("Responses") &&
              forall i :: 0 <= i < |rs| ==> ResponseBlock(rs[i].key, rs[i].val) == Ok(s.children[i + 1])
  {
    var rs := Field(desc, "responses").fields;
    MapAllOk(ResponseOf, rs);
  }

  /** The Definitions section holds one block per entry of the document's
      `definitions`, in order, and is built exactly when every one of them
      is. */
  lemma DefinitionsSectionContents(desc: Json)
    requires desc.Obj? && Field(desc, "definitions").Obj?
    ensures var ds := Field(desc, "definitions").fields;
            DefinitionsSection(desc).Ok? <==> forall i :: 0 <= i < |ds| ==> DefinitionBlock(ds[i].key, ds[i].val).Ok?
    ensures var ds := Field(desc, "definitions").fields;
            DefinitionsSection(desc).Ok? ==>
              var s := DefinitionsSection(desc).value;
              s.Section? && s.id == "Definitions" && |s.children| == |ds| + 1 && s.children[0] == Title("Definitions") &&
              forall i :: 0 <= i < |ds| ==> DefinitionBlock(ds[i].key, ds[i].val) == Ok(s.children[i + 1])
  {
    var ds := Field(desc, "definitions").fields;
    MapAllOk(DefinitionOf, ds);
  }

  /** A document without a `responses` dict shows the error block alone,
      however well formed its operations are. */
  lemma MissingResponsesShowsError(content: seq<string>, desc: Json)
    requires content != [] && !(desc.Obj? && Field(desc, "responses").Obj?)
    ensures RunV2(content, Ok(desc)) == Ok([ErrorBlockFor(content[0])])
  {
    BodySections(desc, content[1..]);
  }

  /** One reusable response that raises replaces the whole output by the
      error block: no partial Methods section is returned. */
  lemma RaisingResponseShowsError(content: seq<string>, desc: Json, i: nat)
    requires content != [] && desc.Obj? && Field(desc, "responses").Obj?
    requires i < |Field(desc, "responses").fields|
    requires ResponseOf(Field(desc, "responses").fields[i]).Raised?
    ensures RunV2(content, Ok(desc)) == Ok([ErrorBlockFor(content[0])])
  {
    MapAllRaises(ResponseOf, Field(desc, "responses").fields, i);
    BodySections(desc, content[1..]);
  }

  /** An operation tagged with a tag the document does not declare makes
      the whole output the error block. */
  lemma UndeclaredTagShowsError(content: seq<string>, desc: Json, names: seq<Json>, k: nat, tag: Json)
    requires content != []
    requires DeclaredNames(desc) == Ok(names) && names != [] && DefaultGroup !in names
    requires AllOperations(desc).Ok? && k < |AllOperations(desc).value|
    requires tag in TagsOf(AllOperations(desc).value[k]) && tag !in names
    ensures RunV2(content, Ok(desc)) == Ok([ErrorBlockFor(content[0])])
  {
    UndeclaredTagRaises(desc, names, k, tag);
  }
}
