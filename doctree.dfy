/** The document tree the directives hand to Sphinx, as an abstract tree
    of the docutils node kinds they build, and the small builders both
    directive classes share: a labelled list item, a section with its
    title, and a table.

    Only what a renderer shows is kept: a node's `rawsource` is dropped,
    and so is the `postpone`/`internal` bookkeeping of a reference. */
module DocTree {
  import opened Outcomes
  import opened PyJson

  datatype Node =
    | Text(text: string)
    | Strong(text: string)
    | Paragraph(children: seq<Node>)
    | Reference(refid: string, caption: string)
    | ListItem(children: seq<Node>)
    | BulletList(items: seq<Node>)
    | Entry(children: seq<Node>)
    | Table(colwidths: seq<int>, head: seq<Node>, body: seq<seq<Node>>)
    | Title(text: string)
    | Admonition(children: seq<Node>)
    | Section(id: string, children: seq<Node>)
    | SystemMessage(text: string)
    | ErrorBlock(children: seq<Node>)

  /** The advice both directives' error blocks give after the URL. */
  const ErrorAdvice := ". Please check that the URL is a valid Swagger api-docs URL and it is accesible"

  /** What a row hands to `cell()`: a string (or a `Text` node, which is a
      string too), one node, or anything else — `None`, a number, a list,
      a dict, or the two-node list of a nested properties table — which
      docutils cannot adopt as a child (it sets `.parent` on it), so
      building the table raises. */
  datatype Cell = CText(s: string) | CNode(n: Node) | CBad

  /** A document value put in a cell as it is. */
  function JsonCell(j: Json): (c: Cell)
    ensures c.CText? <==> j.Str?
    ensures j.Str? ==> c == CText(j.s)
  {
    if j.Str? then CText(j.s) else CBad
  }

  /** `nodes.paragraph(text=s)`: an empty text adds no child. */
  function TextParagraph(s: string): Node
  {
    Paragraph(if s == "" then [] else [Text(s)])
  }

  /** `cell(contents)`: a string becomes a paragraph inside the entry, a
      node goes in as it is. */
  function CellNode(c: Cell): (r: Outcome<Node>)
    ensures r.Ok? <==> !c.CBad?
  {
    match c
    case CText(s) => Ok(Entry([TextParagraph(s)]))
    case CNode(n) => Ok(Entry([n]))
    case CBad => Raised
  }

  function RowNodes(cells: seq<Cell>): Outcome<seq<Node>>
  {
    MapAll(CellNode, cells)
  }

  /** `create_table(head, body)`: one column of width 1 per heading, a
      header row, then one row per body row with one entry per cell. It
      raises exactly when some cell holds something other than a string
      or a single node. */
  function CreateTable(head: seq<string>, body: seq<seq<Cell>>): (r: Outcome<Node>)
    ensures r.Ok? <==> forall i, j :: 0 <= i < |body| && 0 <= j < |body[i]| ==> !body[i][j].CBad?
    ensures r.Ok? ==> r.value.Table? && |r.value.colwidths| == |head| && |r.value.head| == |head|
    ensures r.Ok? ==> forall k :: 0 <= k < |head| ==> r.value.colwidths[k] == 1
    ensures r.Ok? ==> forall k :: 0 <= k < |head| ==> r.value.head[k] == Entry([TextParagraph(head[k])])
    ensures r.Ok? ==> |r.value.body| == |body|
    ensures r.Ok? ==> forall i :: 0 <= i < |body| ==> |r.value.body[i]| == |body[i]|
    ensures r.Ok? ==> forall i, j :: 0 <= i < |body| && 0 <= j < |body[i]| ==>
                        |r.value.body[i]| == |body[i]| && Ok(r.value.body[i][j]) == CellNode(body[i][j])
  {
    MapAllOk(RowNodes, body);
    forall i | 0 <= i < |body| {
      MapAllOk(CellNode, body[i]);
    }
    var headCells := seq(|head|, k requires 0 <= k < |head| => Entry([TextParagraph(head[k])]));
    var rows :- MapAll(RowNodes, body);
    Ok(Table(seq(|head|, k => 1), headCells, rows))
  }

  /** `create_item(key, value)`: a list item holding one paragraph, the
      key in bold followed by the value's text. */
  function Item(key: string, value: string): Node
  {
    ListItem([Paragraph([Strong(key), Text(value)])])
  }

  /** `create_section(title)`: a section whose id is its title, headed by
      that title. */
  function SectionOf(title: string, children: seq<Node>): (s: Node)
    ensures s.Section? && s.id == title && |s.children| == |children| + 1
    ensures s.children[0] == Title(title) && s.children[1..] == children
  {
    Section(title, [Title(title)] + children)
  }
}
