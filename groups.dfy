/** `group_tags` of the Swagger 2.0 directive: the operations of the
    document's `paths`, sorted into one group per declared tag.

    The directive keeps the groups in a dict from tag name to a list of
    `(path, method_type, method)` entries; dicts keep insertion order, so
    here the groups are a list of named groups whose names never repeat. */
module TagGroups {
  import opened Outcomes
  import opened PyJson

  /** `DEFAULT_GROUP`, the group that collects everything when the
      document declares no tags. */
  const DefaultGroup := Str("")

  /** One `(path, method_type, method)` entry of a path item. */
  datatype Operation = Operation(path: string, methodType: string, details: Json)

  datatype Group = Group(name: Json, entries: seq<Operation>)

  function Names(groups: seq<Group>): (ns: seq<Json>)
    ensures |ns| == |groups|
    ensures forall i :: 0 <= i < |groups| ==> ns[i] == groups[i].name
  {
    seq(|groups|, i requires 0 <= i < |groups| => groups[i].name)
  }

  predicate UniqueNames(groups: seq<Group>)
  {
    forall i, j :: 0 <= i < j < |groups| ==> groups[i].name != groups[j].name
  }

  // ---------------------------------------------------------------- declared tags

  /** `groups[name] = []`: a new name goes at the end; a repeated one keeps
      its place and its list is emptied. */
  function Declare(groups: seq<Group>, name: Json): (r: seq<Group>)
    requires UniqueNames(groups)
    ensures UniqueNames(r)
    ensures Names(r) == if name in Names(groups) then Names(groups) else Names(groups) + [name]
  {
    if name in Names(groups) then
      seq(|groups|, i requires 0 <= i < |groups| => if groups[i].name == name then Group(name, []) else groups[i])
    else
      groups + [Group(name, [])]
  }

  /** `tag['name']`, which must be usable as a dict key. */
  function TagName(tag: Json): (r: Outcome<Json>)
    ensures r.Ok? <==> tag.Obj? && HasKey(tag.fields, "name") && Hashable(Field(tag, "name"))
  {
    var name :- Index(tag, "name");
    if Hashable(name) then Ok(name) else Raised
  }

  /** The loop over `api_desc['tags']`. */
  function SeedGroups(tags: seq<Json>): (r: Outcome<seq<Group>>)
    ensures r.Ok? ==> UniqueNames(r.value)
  {
    if tags == [] then Ok([])
    else
      var groups :- SeedGroups(tags[..|tags| - 1]);
      var name :- TagName(tags[|tags| - 1]);
      Ok(Declare(groups, name))
  }

  /** The names in order of first appearance. */
  function Dedup(names: seq<Json>): (r: seq<Json>)
    ensures forall x :: x in r <==> x in names
  {
    if names == [] then []
    else
      var r := Dedup(names[..|names| - 1]);
      assert forall x :: x in names <==> x in names[..|names| - 1] || x == names[|names| - 1];
      if names[|names| - 1] in r then r else r + [names[|names| - 1]]
  }

  /** An empty group for each name. */
  function Fresh(names: seq<Json>): (r: seq<Group>)
    ensures Names(r) == names
  {
    seq(|names|, i requires 0 <= i < |names| => Group(names[i], []))
  }

  /** The names of the declared tags, `[]` when `tags` is absent. `'tags'
      in api_desc` is a key test on a dict. */
  function DeclaredNames(desc: Json): Outcome<seq<Json>>
  {
    var declared :- Contains(desc, "tags");
    if !declared then Ok([])
    else
      var tags :- Index(desc, "tags");
      var elements :- Elements(tags);
      MapAll(TagName, elements)
  }

  /** The groups before any operation is placed: one per declared tag, or
      the default group alone when none is declared. */
  function DeclaredGroups(desc: Json): Outcome<seq<Group>>
  {
    var declared :- Contains(desc, "tags");
    var groups :- if !declared then Ok([])
                  else
                    var tags :- Index(desc, "tags");
                    var elements :- Elements(tags);
                    SeedGroups(elements);
    Ok(if |groups| == 0 then [Group(DefaultGroup, [])] else groups)
  }

  // ---------------------------------------------------------------- placing operations

  /** `groups[name].append(op)` for a name that is present. */
  function AppendTo(groups: seq<Group>, name: Json, op: Operation): (r: seq<Group>)
    ensures Names(r) == Names(groups)
  {
    seq(|groups|, i requires 0 <= i < |groups| =>
      if groups[i].name == name then Group(name, groups[i].entries + [op]) else groups[i])
  }

  predicate HasGroup(groups: seq<Group>, name: Json)
  {
    name in Names(groups)
  }

  /** `for tag in method['tags']: groups[tag].append(...)`: a tag that is
      unhashable or names no group raises. */
  function AppendTags(groups: seq<Group>, tags: seq<Json>, op: Operation): (r: Outcome<seq<Group>>)
    ensures r.Ok? ==> Names(r.value) == Names(groups)
  {
    if tags == [] then Ok(groups)
    else
      var g :- AppendTags(groups, tags[..|tags| - 1], op);
      var tag := tags[|tags| - 1];
      if Hashable(tag) && HasGroup(g, tag) then Ok(AppendTo(g, tag, op)) else Raised
  }

  /** The body of the inner loop over a path's methods. */
  function Place(groups: seq<Group>, op: Operation): (r: Outcome<seq<Group>>)
    ensures r.Ok? ==> Names(r.value) == Names(groups)
  {
    if HasGroup(groups, DefaultGroup) then Ok(AppendTo(groups, DefaultGroup, op))
    else
      var tags :- Index(op.details, "tags");
      var elements :- Elements(tags);
      AppendTags(groups, elements, op)
  }

  function PlaceAll(groups: seq<Group>, ops: seq<Operation>): (r: Outcome<seq<Group>>)
    ensures r.Ok? ==> Names(r.value) == Names(groups)
  {
    if ops == [] then Ok(groups)
    else
      var g :- PlaceAll(groups, ops[..|ops| - 1]);
      Place(g, ops[|ops| - 1])
  }

  /** The entries of one path item, in order; `.items()` needs a dict. */
  function PathOps(path: Member): (r: Outcome<seq<Operation>>)
    ensures r.Ok? <==> path.val.Obj?
    ensures r.Ok? ==> |r.value| == |path.val.fields| &&
                      forall i :: 0 <= i < |r.value| ==>
                        r.value[i] == Operation(path.key, path.val.fields[i].key, path.val.fields[i].val)
  {
    if !path.val.Obj? then Raised
    else
      var fields := path.val.fields;
      Ok(seq(|fields|, i requires 0 <= i < |fields| => Operation(path.key, fields[i].key, fields[i].val)))
  }

  /** Every entry of every path, in path-then-method order. */
  function OpsOf(paths: seq<Member>): Outcome<seq<Operation>>
  {
    ConcatAll(PathOps, paths)
  }

  /** The entries of `api_desc['paths']`, which must be a dict of dicts. */
  function AllOperations(desc: Json): Outcome<seq<Operation>>
  {
    var paths :- Index(desc, "paths");
    if !paths.Obj? then Raised else OpsOf(paths.fields)
  }

  /** `group_tags()` on the document `desc`. */
  function GroupsOf(desc: Json): Outcome<seq<Group>>
  {
    var declared :- DeclaredGroups(desc);
    var ops :- AllOperations(desc);
    PlaceAll(declared, ops)
  }

  // ---------------------------------------------------------------- what the folds compute

  lemma {:induction false} DedupSnoc(names: seq<Json>, x: Json)
    ensures Dedup(names + [x]) == if x in Dedup(names) then Dedup(names) else Dedup(names) + [x]
  {
    assert (names + [x])[..|names|] == names;
  }

  /** Seeding gives one empty group per declared name, in order of first
      declaration; it raises exactly when some tag has no usable name. */
  lemma {:induction false} SeedGroupsFresh(tags: seq<Json>)
    ensures SeedGroups(tags).Ok? <==> MapAll(TagName, tags).Ok?
    ensures SeedGroups(tags).Ok? ==> SeedGroups(tags).value == Fresh(Dedup(MapAll(TagName, tags).value))
  {
    if tags != [] {
      var init := tags[..|tags| - 1];
      var last := tags[|tags| - 1];
      SeedGroupsFresh(init);
      var seeded := SeedGroups(init);
      if seeded.Ok? && TagName(last).Ok? {
        var names := MapAll(TagName, init).value;
        var n := TagName(last).value;
        DedupSnoc(names, n);
        var g := Fresh(Dedup(names));
        assert Names(g) == Dedup(names);
        if n in Names(g) {
          assert Declare(g, n) == g;
        } else {
          assert Declare(g, n) == Fresh(Dedup(names) + [n]);
        }
      }
    }
  }

  /** The group names: the declared tag names without repeats, or the
      default group alone when the document declares none. */
  lemma DeclaredGroupNames(desc: Json)
    ensures DeclaredGroups(desc).Ok? <==> DeclaredNames(desc).Ok?
    ensures DeclaredGroups(desc).Ok? ==>
            var groups := DeclaredGroups(desc).value;
            var names := Dedup(DeclaredNames(desc).value);
            groups == (if names == [] then [Group(DefaultGroup, [])] else Fresh(names))
  {
    if Contains(desc, "tags") == Ok(true) && Index(desc, "tags").Ok? && Elements(Index(desc, "tags").value).Ok? {
      SeedGroupsFresh(Elements(Index(desc, "tags").value).value);
    }
  }

  /** The group `name` after placing `op` in the groups named `tags`: one
      more copy of `op` per occurrence of `name` among the tags. */
  function Copies(op: Operation, n: nat): (r: seq<Operation>)
    ensures |r| == n && forall i :: 0 <= i < n ==> r[i] == op
  {
    seq(n, i => op)
  }

  /** Every tag is hashable and is one of `names`. */
  predicate KnownTags(names: seq<Json>, tags: seq<Json>)
  {
    forall i :: 0 <= i < |tags| ==> Hashable(tags[i]) && tags[i] in names
  }

  /** Each group with `n` more copies of `op`, `n` being how often its
      name occurs among `tags`. */
  function AddCopies(groups: seq<Group>, tags: seq<Json>, op: Operation): (r: seq<Group>)
    ensures Names(r) == Names(groups)
  {
    seq(|groups|, j requires 0 <= j < |groups| =>
      Group(groups[j].name, groups[j].entries + Copies(op, multiset(tags)[groups[j].name])))
  }

  lemma AddCopiesStep(groups: seq<Group>, tags: seq<Json>, tag: Json, op: Operation)
    ensures AppendTo(AddCopies(groups, tags, op), tag, op) == AddCopies(groups, tags + [tag], op)
  {
    var before := AddCopies(groups, tags, op);
    var after := AddCopies(groups, tags + [tag], op);
    assert multiset(tags + [tag]) == multiset(tags) + multiset{tag};
    forall j | 0 <= j < |groups|
      ensures AppendTo(before, tag, op)[j] == after[j]
    {
      var n := multiset(tags)[groups[j].name];
      if groups[j].name == tag {
        assert Copies(op, n) + [op] == Copies(op, n + 1);
      }
    }
  }

  lemma KnownTagsSnoc(names: seq<Json>, tags: seq<Json>, tag: Json)
    ensures KnownTags(names, tags + [tag]) <==> KnownTags(names, tags) && Hashable(tag) && tag in names
  {
    assert forall i :: 0 <= i < |tags| ==> (tags + [tag])[i] == tags[i];
    assert (tags + [tag])[|tags|] == tag;
  }

  /** Placing one operation in the groups its tags name: each occurrence
      of a group's name adds one copy; it raises exactly when a tag is
      unhashable or names no group. */
  lemma {:induction false} AppendTagsCopies(groups: seq<Group>, tags: seq<Json>, op: Operation)
    ensures AppendTags(groups, tags, op).Ok? <==> KnownTags(Names(groups), tags)
    ensures AppendTags(groups, tags, op).Ok? ==> AppendTags(groups, tags, op).value == AddCopies(groups, tags, op)
  {
    if tags == [] {
      assert forall j :: 0 <= j < |groups| ==> groups[j].entries + Copies(op, 0) == groups[j].entries;
      assert AddCopies(groups, [], op) == groups;
    } else {
      var init := tags[..|tags| - 1];
      var tag := tags[|tags| - 1];
      assert tags == init + [tag];
      AppendTagsCopies(groups, init, op);
      KnownTagsSnoc(Names(groups), init, tag);
      if AppendTags(groups, init, op).Ok? {
        AddCopiesStep(groups, init, tag, op);
      }
    }
  }

  /** The operations tagged with `name`, each repeated once per occurrence
      of `name` in its tags. */
  function TaggedOps(name: Json, ops: seq<Operation>): seq<Operation>
  {
    if ops == [] then []
    else TaggedOps(name, ops[..|ops| - 1]) + Copies(ops[|ops| - 1], multiset(TagsOf(ops[|ops| - 1]))[name])
  }

  /** `method['tags']` as a list of values, when it can be iterated. */
  function TagsOf(op: Operation): seq<Json>
  {
    match Index(op.details, "tags")
    case Ok(tags) => (match Elements(tags) case Ok(ts) => ts case Raised => [])
    case Raised => []
  }

  /** The operation has iterable tags, each one of `names`. */
  predicate Placeable(names: seq<Json>, op: Operation)
  {
    Index(op.details, "tags").Ok? && Elements(Index(op.details, "tags").value).Ok? && KnownTags(names, TagsOf(op))
  }

  /** Each group with the operations tagged with its name appended. */
  function AddTagged(groups: seq<Group>, ops: seq<Operation>): (r: seq<Group>)
    ensures Names(r) == Names(groups)
  {
    seq(|groups|, j requires 0 <= j < |groups| =>
      Group(groups[j].name, groups[j].entries + TaggedOps(groups[j].name, ops)))
  }

  lemma AddTaggedStep(groups: seq<Group>, ops: seq<Operation>, op: Operation)
    ensures AddCopies(AddTagged(groups, ops), TagsOf(op), op) == AddTagged(groups, ops + [op])
  {
    assert (ops + [op])[..|ops|] == ops;
    var before := AddTagged(groups, ops);
    forall j | 0 <= j < |groups|
      ensures AddCopies(before, TagsOf(op), op)[j] == AddTagged(groups, ops + [op])[j]
    {
      var name := groups[j].name;
      assert TaggedOps(name, ops + [op]) == TaggedOps(name, ops) + Copies(op, multiset(TagsOf(op))[name]);
    }
  }

  /** With declared tags, every group collects exactly the operations
      tagged with its name, in path-then-method order, and placing raises
      exactly when some operation has no iterable tags or a tag naming no
      group. */
  lemma {:induction false} PlaceAllTagged(groups: seq<Group>, ops: seq<Operation>)
    requires !HasGroup(groups, DefaultGroup)
    ensures PlaceAll(groups, ops).Ok? <==> forall k :: 0 <= k < |ops| ==> Placeable(Names(groups), ops[k])
    ensures PlaceAll(groups, ops).Ok? ==> PlaceAll(groups, ops).value == AddTagged(groups, ops)
  {
    if ops == [] {
      assert forall j :: 0 <= j < |groups| ==> groups[j].entries + TaggedOps(groups[j].name, []) == groups[j].entries;
      assert AddTagged(groups, []) == groups;
    } else {
      var init := ops[..|ops| - 1];
      var op := ops[|ops| - 1];
      assert ops == init + [op];
      PlaceAllTagged(groups, init);
      if PlaceAll(groups, init).Ok? {
        var g := AddTagged(groups, init);
        assert forall t :: HasGroup(g, t) <==> HasGroup(groups, t);
        if Index(op.details, "tags").Ok? && Elements(Index(op.details, "tags").value).Ok? {
          AppendTagsCopies(g, TagsOf(op), op);
          AddTaggedStep(groups, init, op);
        }
      }
    }
  }

  /** Each group named `DEFAULT_GROUP` with `ops` appended. */
  function AddToDefault(groups: seq<Group>, ops: seq<Operation>): (r: seq<Group>)
    ensures Names(r) == Names(groups)
  {
    seq(|groups|, j requires 0 <= j < |groups| =>
      if groups[j].name == DefaultGroup then Group(DefaultGroup, groups[j].entries + ops) else groups[j])
  }

  lemma AddToDefaultStep(groups: seq<Group>, ops: seq<Operation>, op: Operation)
    ensures AppendTo(AddToDefault(groups, ops), DefaultGroup, op) == AddToDefault(groups, ops + [op])
  {
    forall j | 0 <= j < |groups|
      ensures AppendTo(AddToDefault(groups, ops), DefaultGroup, op)[j] == AddToDefault(groups, ops + [op])[j]
    {
      assert groups[j].entries + ops + [op] == groups[j].entries + (ops + [op]);
    }
  }

  /** Without declared tags the default group collects every entry of
      every path, `$ref` and `parameters` entries included, in
      path-then-method order. */
  lemma {:induction false} PlaceAllDefault(groups: seq<Group>, ops: seq<Operation>)
    requires HasGroup(groups, DefaultGroup)
    ensures PlaceAll(groups, ops) == Ok(AddToDefault(groups, ops))
  {
    if ops == [] {
      assert forall j :: 0 <= j < |groups| ==> groups[j].entries + [] == groups[j].entries;
      assert AddToDefault(groups, []) == groups;
    } else {
      var init := ops[..|ops| - 1];
      var op := ops[|ops| - 1];
      assert ops == init + [op];
      PlaceAllDefault(groups, init);
      AddToDefaultStep(groups, init, op);
    }
  }

  // ---------------------------------------------------------------- group_tags as a whole

  /** The entries come path by path, each path's methods in order; the
      paths must be a dict of dicts. */
  lemma AllOperationsInOrder(desc: Json)
    requires desc.Obj? && Field(desc, "paths").Obj?
    ensures var paths := Field(desc, "paths").fields;
            AllOperations(desc).Ok? <==> forall i :: 0 <= i < |paths| ==> paths[i].val.Obj?
    ensures var paths := Field(desc, "paths").fields;
            AllOperations(desc).Ok? ==>
              AllOperations(desc).value == Flatten(Runs(PathOps, paths))
  {
    var paths := Field(desc, "paths").fields;
    ConcatAllOk(PathOps, paths);
  }

  /** A document that declares no tags yields the default group alone,
      holding every entry of every path. */
  lemma UndeclaredTagsDefault(desc: Json)
    requires DeclaredNames(desc) == Ok([]) && AllOperations(desc).Ok?
    ensures GroupsOf(desc) == Ok([Group(DefaultGroup, AllOperations(desc).value)])
  {
    DeclaredGroupNames(desc);
    assert Dedup([]) == [];
    var groups := [Group(DefaultGroup, [])];
    assert DeclaredGroups(desc) == Ok(groups);
    var ops := AllOperations(desc).value;
    assert Names(groups) == [DefaultGroup];
    assert GroupsOf(desc) == PlaceAll(groups, ops);
    PlaceAllDefault(groups, ops);
    assert [] + ops == ops;
    assert AddToDefault(groups, ops) == [Group(DefaultGroup, ops)];
  }

  /** With declared tags (none of them `''`), there is one group per
      declared name, in order of first declaration, and each holds the
      operations carrying that tag, once per occurrence of the tag; the
      grouping raises exactly when some entry has no iterable `tags` or a
      tag that was not declared. */
  lemma DeclaredTagsGroups(desc: Json, names: seq<Json>)
    requires DeclaredNames(desc) == Ok(names) && names != [] && DefaultGroup !in names
    requires AllOperations(desc).Ok?
    ensures var ops := AllOperations(desc).value;
            GroupsOf(desc).Ok? <==> forall k :: 0 <= k < |ops| ==> Placeable(names, ops[k])
    ensures GroupsOf(desc).Ok? ==>
              var groups := GroupsOf(desc).value;
              Names(groups) == Dedup(names) &&
              forall j :: 0 <= j < |groups| ==> groups[j].entries == TaggedOps(groups[j].name, AllOperations(desc).value)
  {
    DeclaredGroupNames(desc);
    var seeded := Fresh(Dedup(names));
    var ops := AllOperations(desc).value;
    assert Dedup(names) != [] by { assert names[0] in Dedup(names); }
    assert DeclaredGroups(desc) == Ok(seeded);
    assert !HasGroup(seeded, DefaultGroup);
    PlaceAllTagged(seeded, ops);
    forall k | 0 <= k < |ops|
      ensures Placeable(Names(seeded), ops[k]) <==> Placeable(names, ops[k])
    {
    }
    if GroupsOf(desc).Ok? {
      forall j | 0 <= j < |seeded|
        ensures AddTagged(seeded, ops)[j].entries == TaggedOps(seeded[j].name, ops)
      {
        assert [] + TaggedOps(seeded[j].name, ops) == TaggedOps(seeded[j].name, ops);
      }
    }
  }

  /** With declared tags, one entry without usable `tags` (a method lacking
      the key, or a path-level `parameters` list, which is not a dict) makes
      the whole grouping raise. */
  lemma UntaggedEntryRaises(desc: Json, names: seq<Json>, k: nat)
    requires DeclaredNames(desc) == Ok(names) && names != [] && DefaultGroup !in names
    requires AllOperations(desc).Ok? && k < |AllOperations(desc).value|
    requires Index(AllOperations(desc).value[k].details, "tags").Raised?
    ensures GroupsOf(desc).Raised?
  {
    DeclaredTagsGroups(desc, names);
  }

  /** With declared tags, a tag that was not declared makes the whole
      grouping raise. */
  lemma UndeclaredTagRaises(desc: Json, names: seq<Json>, k: nat, tag: Json)
    requires DeclaredNames(desc) == Ok(names) && names != [] && DefaultGroup !in names
    requires AllOperations(desc).Ok? && k < |AllOperations(desc).value|
    requires tag in TagsOf(AllOperations(desc).value[k]) && tag !in names
    ensures GroupsOf(desc).Raised?
  {
    DeclaredTagsGroups(desc, names);
  }

  lemma PlaceAllSnoc(groups: seq<Group>, ops: seq<Operation>, op: Operation)
    ensures PlaceAll(groups, ops + [op]) ==
              match PlaceAll(groups, ops) case Raised => Raised case Ok(g) => Place(g, op)
  {
    assert (ops + [op])[..|ops|] == ops;
  }

  /** Once placing raises, placing more entries after it still raises. */
  lemma {:induction false} PlaceAllPrefixRaises(groups: seq<Group>, ops: seq<Operation>, more: seq<Operation>)
    requires PlaceAll(groups, ops).Raised?
    ensures PlaceAll(groups, ops + more).Raised?
  {
    if more == [] {
      assert ops + more == ops;
    } else {
      var init := more[..|more| - 1];
      assert ops + more == (ops + init) + [more[|more| - 1]];
      PlaceAllPrefixRaises(groups, ops, init);
      PlaceAllSnoc(groups, ops + init, more[|more| - 1]);
    }
  }

  /** Placing two runs of entries is placing the first, then the second
      in what the first gave. */
  lemma {:induction false} PlaceAllAppend(groups: seq<Group>, ops: seq<Operation>, more: seq<Operation>)
    ensures PlaceAll(groups, ops + more) ==
              match PlaceAll(groups, ops) case Raised => Raised case Ok(g) => PlaceAll(g, more)
  {
    if more == [] {
      assert ops + more == ops;
    } else {
      var init := more[..|more| - 1];
      var op := more[|more| - 1];
      assert ops + more == (ops + init) + [op];
      assert more == init + [op];
      PlaceAllAppend(groups, ops, init);
      PlaceAllSnoc(groups, ops + init, op);
      if PlaceAll(groups, ops).Ok? {
        PlaceAllSnoc(PlaceAll(groups, ops).value, init, op);
      }
    }
  }

  /** The loop step of placing a list of entries one by one. */
  lemma PlaceAllStep(groups: seq<Group>, ops: seq<Operation>, k: nat, placed: seq<Group>)
    requires k < |ops| && PlaceAll(groups, ops[..k]) == Ok(placed)
    ensures PlaceAll(groups, ops[..k + 1]) == Place(placed, ops[k])
  {
    assert ops[..k + 1] == ops[..k] + [ops[k]];
    PlaceAllSnoc(groups, ops[..k], ops[k]);
  }

  /** An entry that cannot be placed makes placing the whole list raise. */
  lemma PlaceAllRaisesAt(groups: seq<Group>, ops: seq<Operation>, k: nat, placed: seq<Group>)
    requires k < |ops| && PlaceAll(groups, ops[..k]) == Ok(placed) && Place(placed, ops[k]).Raised?
    ensures PlaceAll(groups, ops).Raised?
  {
    PlaceAllStep(groups, ops, k, placed);
    assert ops == ops[..k + 1] + ops[k + 1..];
    PlaceAllPrefixRaises(groups, ops[..k + 1], ops[k + 1..]);
  }
}
