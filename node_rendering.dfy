/** XmlStructureNodeVisitor: the visitor that prints a proxy tree as XML text. Each callback
    appends one fragment to a string builder; what the fragment holds depends on two display
    options, whether formatting and whether images are shown. */
module NodeRendering {
  import Sequences
  import opened Wrappers
  import opened Proxies
  import opened XmlStructureExtensions

  /** XmlStructureDisplayOptions. */
  datatype DisplayOptions = DisplayOptions(includeFormatting: bool, includeImages: bool)

  /** One attribute: its name and its (unquoted) value. */
  datatype NamedValue = NamedValue(name: string, value: string)

  /** One attribute as `Name="Value"`; the value is quoted but not escaped. */
  function Attribute(a: NamedValue): (r: string)
    ensures |r| == |a.name| + |a.value| + 3
    ensures r[..|a.name|] == a.name && r[|a.name|] == '='
    ensures r[|a.name| + 1] == Quote && r[|r| - 1] == Quote
    ensures r[|a.name| + 2..|r| - 1] == a.value
  {
    a.name + "=" + EncapsulateWithQuotes(a.value)
  }

  /** FormatAttributes: the attributes as `Name="Value"`, separated by single spaces. */
  function FormatAttributes(pairs: seq<NamedValue>): (r: string)
    ensures pairs == [] <==> r == []
    ensures pairs != [] ==> Attribute(pairs[0]) <= r
    ensures |pairs| > 1 ==> Attribute(pairs[0]) + " " <= r
  {
    if pairs == [] then []
    else if |pairs| == 1 then Attribute(pairs[0])
    else Attribute(pairs[0]) + " " + FormatAttributes(pairs[1..])
  }

  /** Joining is associative: the attributes of two non-empty lists are those of each list
      separated by one space. */
  lemma {:induction false} FormatAttributesAppend(a: seq<NamedValue>, b: seq<NamedValue>)
    requires a != [] && b != []
    ensures FormatAttributes(a + b) == FormatAttributes(a) + " " + FormatAttributes(b)
    decreases |a|
  {
    Sequences.ConcatTail(a, b);
    if |a| > 1 {
      FormatAttributesAppend(a[1..], b);
    } else {
      assert a[1..] + b == b;
    }
  }

  /** bool.ToString(). */
  function BoolText(b: bool): string
  {
    if b then "True" else "False"
  }

  /** String.Format prints a null image as nothing. */
  function ImageText(image: Option<string>): string
  {
    if image.Some? then image.value else ""
  }

  /** The element name the renderer uses for each proxy class. */
  function TagName(p: Proxy): string
  {
    match p
    case Document(_) => "Document"
    case Section(_, _, _, _) => "Section"
    case Body(_) => "Body"
    case Header(_, _, _) => "Header"
    case Footer(_, _, _) => "Footer"
    case Paragraph(_, _) => "Paragraph"
    case Table(_) => "Table"
    case Row(_) => "Row"
    case Cell(_) => "Cell"
    case ContentControl(_, _, _) => "ContentControl"
    case Shape(_, _, _) => "Shape"
    case GroupShape(_, _) => "GroupShape"
    case Run(_, _) => "Run"
    case BookmarkStart(_) => "BookmarkStart"
    case BookmarkEnd(_) => "BookmarkEnd"
    case DrawingMl(_, _) => "DrawingMl"
    case FieldStart => "FieldStart"
    case FieldSeparator => "FieldSeparator"
    case FieldEnd => "FieldEnd"
  }

  /** What a start callback appends: the element's tag, after a line break for a group
      shape, then `StartTail`. */
  function StartFragment(p: Proxy, o: DisplayOptions): string
  {
    Lead(p) + "<" + TagName(p) + StartTail(p, o)
  }

  /** The attributes of a start tag (each after a space) and what follows `>`. */
  function StartTail(p: Proxy, o: DisplayOptions): (r: string)
    ensures |r| > 0 && (r[0] == ' ' || r[0] == '>')
  {
    match p
    case Section(format, _, _, _) =>
      if o.includeFormatting then
        " " + FormatAttributes([NamedValue("Orientation", format.orientation), NamedValue("PaperSize", format.paperSize)]) + ">" + NewLine
      else ">" + NewLine
    case Header(headerType, linked, _) =>
      " " + FormatAttributes([NamedValue("Type", headerType), NamedValue("LinkedToPrevious", BoolText(linked))]) + ">" + NewLine
    case Footer(footerType, linked, _) =>
      " " + FormatAttributes([NamedValue("Type", footerType), NamedValue("LinkedToPrevious", BoolText(linked))]) + ">" + NewLine
    case Paragraph(format, _) =>
      if o.includeFormatting then
        " " + FormatAttributes([NamedValue("StyleIdentifier", format.styleIdentifier), NamedValue("StyleName", format.styleName)]) + ">" + NewLine
      else ">" + NewLine
    case ContentControl(controlType, tag, _) =>
      " " + FormatAttributes([NamedValue("Type", controlType), NamedValue("Tag", tag)]) + ">" + NewLine
    case Shape(name, image, _) =>
      " " + FormatAttributes([NamedValue("Name", name)]) + ">"
      + (if o.includeImages then NewLine + "<Image>" + ImageText(image) + "</Image>" else NewLine)
    case GroupShape(name, _) =>
      " " + FormatAttributes([NamedValue("Name", name)]) + ">" + NewLine
    case _ => ">" + NewLine
  }

  /** What the callback of a leaf appends: its tag, then `LeafTail`. */
  function LeafFragment(p: Proxy, o: DisplayOptions): string
  {
    "<" + TagName(p) + LeafTail(p, o)
  }

  /** The attributes of a leaf's tag and the rest of its text. A run holds its escaped text;
      a bookmark end is not followed by a line break. */
  function LeafTail(p: Proxy, o: DisplayOptions): (r: string)
    ensures |r| > 0 && (r[0] == ' ' || r[0] == '>')
  {
    match p
    case Run(text, format) =>
      if o.includeFormatting then
        " " + FormatAttributes([NamedValue("Language", format.language), NamedValue("StyleIdentifier", format.styleIdentifier),
                                NamedValue("StyleName", format.styleName), NamedValue("Font", format.font),
                                NamedValue("Size", format.size)])
        + ">" + Escape(text) + "</Run>" + NewLine
      else ">" + Escape(text) + "</Run>" + NewLine
    case BookmarkStart(name) => " " + FormatAttributes([NamedValue("Name", name)]) + " />" + NewLine
    case BookmarkEnd(name) => " " + FormatAttributes([NamedValue("Name", name)]) + " />"
    case DrawingMl(name, image) =>
      if o.includeImages then
        " " + FormatAttributes([NamedValue("Name", name)]) + ">" + NewLine
        + "<Image>" + NewLine + ImageText(image) + NewLine + "</Image>" + NewLine + "</DrawingMl>" + NewLine
      else " " + FormatAttributes([NamedValue("Name", name)]) + " />" + NewLine
    case _ => " />" + NewLine
  }

  /** The text one callback appends to the builder. */
  function Fragment(v: Visit, o: DisplayOptions): string
  {
    match v
    case Enter(p) => StartFragment(p, o)
    case Exit(p) => EndFragment(p)
    case Leaf(p) => LeafFragment(p, o)
  }

  /** What an end callback appends: the closing tag of the element. */
  function EndFragment(p: Proxy): string
  {
    "</" + TagName(p) + ">" + NewLine
  }

  /** The builder's text after a run of callbacks. */
  function RenderAll(vs: seq<Visit>, o: DisplayOptions): string
  {
    if vs == [] then [] else Fragment(vs[0], o) + RenderAll(vs[1..], o)
  }

  /** The text a proxy tree renders to. */
  function Render(p: Proxy, o: DisplayOptions): string
    requires Visitable(p)
  {
    RenderAll(Accept(p), o)
  }

  lemma {:induction false} RenderAllAppend(a: seq<Visit>, b: seq<Visit>, o: DisplayOptions)
    ensures RenderAll(a + b, o) == RenderAll(a, o) + RenderAll(b, o)
  {
    if a == [] {
      assert a + b == b;
    } else {
      Sequences.ConcatTail(a, b);
      RenderAllAppend(a[1..], b, o);
    }
  }

  /** The line breaks a start fragment puts in front of its tag. */
  function Lead(p: Proxy): string
  {
    if p.GroupShape? then NewLine else ""
  }

  /** Each composite becomes one XML element around its children: the start fragment opens
      an element named after the proxy class (followed by its attributes or by `>`), then
      come the visited children's texts in order, then the element is closed. */
  lemma RenderNesting(p: Proxy, o: DisplayOptions)
    requires Visitable(p) && IsComposite(KindOf(p))
    ensures Render(p, o) == StartFragment(p, o) + RenderAll(AcceptAll(Visited(p)), o) + EndFragment(p)
  {
    AcceptShape(p);
    var middle := AcceptAll(Visited(p));
    assert Render(p, o) == RenderAll([Enter(p)] + middle + [Exit(p)], o);
    RenderAllAppend([Enter(p)] + middle, [Exit(p)], o);
    RenderAllAppend([Enter(p)], middle, o);
    RenderAllSingle(Enter(p), o);
    RenderAllSingle(Exit(p), o);
  }

  /** A leaf renders to its one fragment. */
  lemma RenderLeaf(p: Proxy, o: DisplayOptions)
    requires !IsComposite(KindOf(p))
    ensures Visitable(p) && Render(p, o) == Fragment(Leaf(p), o)
  {
    AcceptShape(p);
    RenderAllSingle(Leaf(p), o);
  }

  lemma RenderAllSingle(v: Visit, o: DisplayOptions)
    ensures RenderAll([v], o) == Fragment(v, o)
  {
    assert [v][1..] == [];
  }

  /** The callbacks whose text depends on the formatting option: section and paragraph
      starts and runs. */
  predicate FormattingShown(v: Visit)
  {
    (v.Enter? && (v.node.Section? || v.node.Paragraph?)) || (v.Leaf? && v.node.Run?)
  }

  /** The callbacks whose text depends on the image option: shape starts and DrawingML. */
  predicate ImageShown(v: Visit)
  {
    (v.Enter? && v.node.Shape?) || (v.Leaf? && v.node.DrawingMl?)
  }

  /** `a` shows nothing that `b` hides. */
  predicate ShowsAtMost(a: DisplayOptions, b: DisplayOptions)
  {
    (a.includeFormatting ==> b.includeFormatting) && (a.includeImages ==> b.includeImages)
  }

  /** A callback's text changes with the options exactly when it shows formatting and that
      option differs, or shows an image and that option differs; switching an option on
      only ever lengthens it. */
  lemma FragmentOptions(v: Visit, a: DisplayOptions, b: DisplayOptions)
    requires ShowsAtMost(a, b)
    ensures Fragment(v, a) != Fragment(v, b) <==>
      (FormattingShown(v) && a.includeFormatting != b.includeFormatting)
      || (ImageShown(v) && a.includeImages != b.includeImages)
    ensures Fragment(v, a) == Fragment(v, b) || |Fragment(v, a)| < |Fragment(v, b)|
  {
    match v
    case Enter(p) =>
      StartTailOptions(p, a, b);
      SamePrefix(Lead(p) + "<" + TagName(p), StartTail(p, a), StartTail(p, b));
    case Exit(p) =>
    case Leaf(p) =>
      LeafTailOptions(p, a, b);
      SamePrefix("<" + TagName(p), LeafTail(p, a), LeafTail(p, b));
  }

  lemma SamePrefix(x: string, s: string, t: string)
    ensures x + s == x + t <==> s == t
    ensures |x + s| < |x + t| <==> |s| < |t|
  {
    if x + s == x + t {
      assert s == (x + s)[|x|..] && t == (x + t)[|x|..];
    }
  }

  lemma StartTailOptions(p: Proxy, a: DisplayOptions, b: DisplayOptions)
    requires ShowsAtMost(a, b)
    ensures StartTail(p, a) != StartTail(p, b) <==>
      ((p.Section? || p.Paragraph?) && a.includeFormatting != b.includeFormatting)
      || (p.Shape? && a.includeImages != b.includeImages)
    ensures StartTail(p, a) == StartTail(p, b) || |StartTail(p, a)| < |StartTail(p, b)|
  {
    match p
    case Section(_, _, _, _) =>
    case Paragraph(_, _) =>
    case Shape(_, _, _) =>
    case _ =>
  }

  lemma LeafTailOptions(p: Proxy, a: DisplayOptions, b: DisplayOptions)
    requires ShowsAtMost(a, b)
    ensures LeafTail(p, a) != LeafTail(p, b) <==>
      (p.Run? && a.includeFormatting != b.includeFormatting)
      || (p.DrawingMl? && a.includeImages != b.includeImages)
    ensures LeafTail(p, a) == LeafTail(p, b) || |LeafTail(p, a)| < |LeafTail(p, b)|
  {
    match p
    case Run(_, _) =>
    case DrawingMl(_, _) =>
    case _ =>
  }

  /** Over a whole run of callbacks: the text with fewer options shown is never longer, and
      it is the same text exactly when no callback's fragment depends on the differing
      options. */
  lemma {:induction false} RenderAllOptions(vs: seq<Visit>, a: DisplayOptions, b: DisplayOptions)
    requires ShowsAtMost(a, b)
    ensures |RenderAll(vs, a)| <= |RenderAll(vs, b)|
    ensures RenderAll(vs, a) == RenderAll(vs, b) <==>
      forall i | 0 <= i < |vs| :: Fragment(vs[i], a) == Fragment(vs[i], b)
  {
    if vs != [] {
      var rest := vs[1..];
      RenderAllOptions(rest, a, b);
      FragmentOptions(vs[0], a, b);
      var fa, fb := Fragment(vs[0], a), Fragment(vs[0], b);
      var ra, rb := RenderAll(rest, a), RenderAll(rest, b);
      assert RenderAll(vs, a) == fa + ra;
      assert RenderAll(vs, b) == fb + rb;
      if fa != fb {
        assert |fa + ra| < |fb + rb|;
      } else if ra == rb {
        forall i | 0 <= i < |vs| ensures Fragment(vs[i], a) == Fragment(vs[i], b) {
          if i > 0 {
            assert vs[i] == rest[i - 1];
          }
        }
      } else {
        assert (fa + ra)[|fa|..] == ra && (fb + rb)[|fb|..] == rb;
        var j :| 0 <= j < |rest| && Fragment(rest[j], a) != Fragment(rest[j], b);
        assert vs[j + 1] == rest[j];
      }
    }
  }

  /** Over the callbacks of a traversal (a tree renders to `RenderAll(Accept(p), o)`):
      formatting off prints exactly what formatting on prints when no section, paragraph or
      run is visited, and never prints more. */
  lemma FormattingOnlyAddsText(vs: seq<Visit>, images: bool)
    ensures |RenderAll(vs, DisplayOptions(false, images))| <= |RenderAll(vs, DisplayOptions(true, images))|
    ensures RenderAll(vs, DisplayOptions(false, images)) == RenderAll(vs, DisplayOptions(true, images)) <==>
      forall i | 0 <= i < |vs| :: !FormattingShown(vs[i])
  {
    var a := DisplayOptions(false, images);
    var b := DisplayOptions(true, images);
    RenderAllOptions(vs, a, b);
    forall i | 0 <= i < |vs|
      ensures Fragment(vs[i], a) == Fragment(vs[i], b) <==> !FormattingShown(vs[i])
    {
      FragmentOptions(vs[i], a, b);
    }
  }

  /** The same for images: hiding them changes the text exactly when a shape or a DrawingML
      is visited. */
  lemma ImagesOnlyAddText(vs: seq<Visit>, formatting: bool)
    ensures |RenderAll(vs, DisplayOptions(formatting, false))| <= |RenderAll(vs, DisplayOptions(formatting, true))|
    ensures RenderAll(vs, DisplayOptions(formatting, false)) == RenderAll(vs, DisplayOptions(formatting, true)) <==>
      forall i | 0 <= i < |vs| :: !ImageShown(vs[i])
  {
    var a := DisplayOptions(formatting, false);
    var b := DisplayOptions(formatting, true);
    RenderAllOptions(vs, a, b);
    forall i | 0 <= i < |vs|
      ensures Fragment(vs[i], a) == Fragment(vs[i], b) <==> !ImageShown(vs[i])
    {
      FragmentOptions(vs[i], a, b);
    }
  }

  /** The text of the first `i + 1` children is that of the first `i` followed by the next
      child's. */
  lemma RenderOneMore(children: seq<Proxy>, i: nat, o: DisplayOptions)
    requires i < |children| && forall c | c in children :: Visitable(c)
    ensures forall c | c in children[..i + 1] :: Visitable(c)
    ensures RenderAll(AcceptAll(children[..i + 1]), o)
      == RenderAll(AcceptAll(children[..i]), o) + Render(children[i], o)
  {
    var child := children[i];
    assert children[..i + 1] == children[..i] + [child];
    AcceptAllDistributes(children[..i], [child]);
    assert AcceptAll([child]) == Accept(child) + AcceptAll([]);
    assert AcceptAll([child]) == Accept(child);
    RenderAllAppend(AcceptAll(children[..i]), Accept(child), o);
  }

  /** A single child renders to its own text. */
  lemma RenderSingleChild(child: Proxy, o: DisplayOptions)
    requires Visitable(child)
    ensures RenderAll(AcceptAll([child]), o) == Render(child, o)
  {
    assert [child][1..] == [];
    assert AcceptAll([child]) == Accept(child) + AcceptAll([]);
    assert AcceptAll([child]) == Accept(child);
  }

  /** Appending to a builder piece by piece gives the pieces' concatenation. */
  lemma Regroup(a: string, b: string, c: string)
    ensures a + b + c == a + (b + c)
  {
  }

  /** One turn of the loop over the children: the builder that held the first `i` children's
      text, extended by the next child's, holds the first `i + 1` children's. */
  lemma RenderNextChild(start: string, children: seq<Proxy>, i: nat, o: DisplayOptions, before: string, after: string)
    requires i < |children| && forall c | c in children :: Visitable(c)
    requires before == start + RenderAll(AcceptAll(children[..i]), o)
    requires after == before + Render(children[i], o)
    ensures after == start + RenderAll(AcceptAll(children[..i + 1]), o)
  {
    RenderOneMore(children, i, o);
    Regroup(start, RenderAll(AcceptAll(children[..i]), o), Render(children[i], o));
  }

  /** XmlStructureNodeVisitor: the options it was made with and the text built so far. */
  class XmlStructureNodeVisitor {
    const displayOptions: DisplayOptions
    var builder: string

    constructor (displayOptions: DisplayOptions)
      ensures this.displayOptions == displayOptions && builder == []
    {
      this.displayOptions := displayOptions;
      builder := [];
    }

    /** Any one of the visitor's callbacks: appends its fragment. */
    method Visit(v: Visit)
      modifies this
      ensures builder == old(builder) + Fragment(v, displayOptions)
    {
      var fragment := Fragment(v, displayOptions);
      builder := builder + fragment;
    }
  }

  /** A proxy's `Accept`: the start callback, each visited child's `Accept` in order, the
      end callback; a leaf makes its one callback. The builder grows by the tree's text. */
  method AcceptVisitor(p: Proxy, visitor: XmlStructureNodeVisitor)
    requires Visitable(p)
    modifies visitor
    ensures visitor.builder == old(visitor.builder) + Render(p, visitor.displayOptions)
    decreases p, 1
  {
    var o := visitor.displayOptions;
    if IsComposite(KindOf(p)) {
      var before := visitor.builder;
      visitor.Visit(Enter(p));
      AcceptChildren(p, visitor);
      visitor.Visit(Exit(p));
      RenderNesting(p, o);
      Regroup(before, StartFragment(p, o), RenderAll(AcceptAll(Visited(p)), o));
      Regroup(before, StartFragment(p, o) + RenderAll(AcceptAll(Visited(p)), o), EndFragment(p));
    } else {
      visitor.Visit(Leaf(p));
      RenderLeaf(p, o);
    }
  }

  /** What a composite's `Accept` does between its start and end callbacks: a section's
      accepts its Body; every other composite's loops over its children in order. */
  method AcceptChildren(p: Proxy, visitor: XmlStructureNodeVisitor)
    requires Visitable(p)
    modifies visitor
    ensures visitor.builder == old(visitor.builder) + RenderAll(AcceptAll(Visited(p)), visitor.displayOptions)
    decreases p, 0
  {
    var o := visitor.displayOptions;
    if p.Section? {
      AcceptVisitor(p.body.value, visitor);
      RenderSingleChild(p.body.value, o);
      return;
    }
    if !HasChildren(p) {
      return;
    }
    var children := p.children;
    var i := 0;
    while i < |children|
      invariant 0 <= i <= |children|
      invariant visitor.builder == old(visitor.builder) + RenderAll(AcceptAll(children[..i]), o)
    {
      var before := visitor.builder;
      AcceptVisitor(children[i], visitor);
      RenderNextChild(old(visitor.builder), children, i, o, before, visitor.builder);
      i := i + 1;
    }
    assert children[..i] == children;
  }

  /** The whole text for a tree and a choice of options, built by a fresh visitor. */
  method BuildXml(p: Proxy, o: DisplayOptions) returns (xml: string)
    requires Visitable(p)
    ensures xml == Render(p, o)
  {
    var visitor := new XmlStructureNodeVisitor(o);
    AcceptVisitor(p, visitor);
    xml := visitor.builder;
  }
}
