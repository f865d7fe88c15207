/** ProxyFactory: one `Create*` per proxy class. Each call builds a new proxy with no
    children and hands its arguments straight to the proxy's properties. */
module ProxyFactory {
  import opened Wrappers
  import opened Proxies

  /** The Format of a new ParagraphProxy and of a new RunProxy. Those classes are not part
      of this model; their fresh formatting is represented by these fixed values. */
  const FreshParagraphFormat: ParagraphFormat := ParagraphFormat("", "")
  const FreshRunFormat: RunFormat := RunFormat("", "", "", "", "")

  function CreateDocument(): (r: Proxy)
    ensures KindOf(r) == DocumentKind && Emptied(r) == r
  {
    Document([])
  }

  /** A section keeps the orientation and paper size it is created with in its Format. */
  function CreateSection(orientation: string, paperSize: string): (r: Proxy)
    ensures KindOf(r) == SectionKind && Emptied(r) == r
    ensures r.format == SectionFormat(orientation, paperSize)
  {
    Section(SectionFormat(orientation, paperSize), None, [], [])
  }

  function CreateBody(): (r: Proxy)
    ensures KindOf(r) == BodyKind && Emptied(r) == r
  {
    Body([])
  }

  function CreateParagraph(): (r: Proxy)
    ensures KindOf(r) == ParagraphKind && Emptied(r) == r
  {
    Paragraph(FreshParagraphFormat, [])
  }

  function CreateTable(): (r: Proxy)
    ensures KindOf(r) == TableKind && Emptied(r) == r
  {
    Table([])
  }

  function CreateRun(text: string): (r: Proxy)
    ensures KindOf(r) == RunKind && r.text == text
  {
    Run(text, FreshRunFormat)
  }

  function CreateRow(): (r: Proxy)
    ensures KindOf(r) == RowKind && Emptied(r) == r
  {
    Row([])
  }

  function CreateCell(): (r: Proxy)
    ensures KindOf(r) == CellKind && Emptied(r) == r
  {
    Cell([])
  }

  function CreateBookmarkStart(bookmarkName: string): (r: Proxy)
    ensures KindOf(r) == BookmarkStartKind && r.name == bookmarkName
  {
    BookmarkStart(bookmarkName)
  }

  function CreateBookmarkEnd(bookmarkName: string): (r: Proxy)
    ensures KindOf(r) == BookmarkEndKind && r.name == bookmarkName
  {
    BookmarkEnd(bookmarkName)
  }

  /** A new DrawingML proxy has its name and no image yet. */
  function CreateDrawingMl(name: string): (r: Proxy)
    ensures KindOf(r) == DrawingMlKind && r.name == name && r.image.None?
  {
    DrawingMl(name, None)
  }

  function CreateFieldStart(): (r: Proxy)
    ensures KindOf(r) == FieldStartKind
  {
    FieldStart
  }

  function CreateFieldSeparator(): (r: Proxy)
    ensures KindOf(r) == FieldSeparatorKind
  {
    FieldSeparator
  }

  function CreateFieldEnd(): (r: Proxy)
    ensures KindOf(r) == FieldEndKind
  {
    FieldEnd
  }

  /** A new shape has its name, no image (the publicly settable Image starts as null) and
      no children. */
  function CreateShape(shapeName: string): (r: Proxy)
    ensures KindOf(r) == ShapeKind && Emptied(r) == r
    ensures r.name == shapeName && r.image.None?
  {
    Shape(shapeName, None, [])
  }

  function CreateGroupShape(groupShapeName: string): (r: Proxy)
    ensures KindOf(r) == GroupShapeKind && Emptied(r) == r
    ensures r.name == groupShapeName
  {
    GroupShape(groupShapeName, [])
  }

  /** A content control keeps its type and tag; `Add` never changes them. */
  function CreateContentControl(contentControlType: string, tag: string): (r: Proxy)
    ensures KindOf(r) == ContentControlKind && Emptied(r) == r
    ensures r.controlType == contentControlType && r.tag == tag
  {
    ContentControl(contentControlType, tag, [])
  }

  /** A new header has its type and is not linked to the previous section's header. */
  function CreateHeader(headerType: string): (r: Proxy)
    ensures KindOf(r) == HeaderKind && Emptied(r) == r
    ensures r.headerType == headerType && !r.isLinkedToPrevious
  {
    Header(headerType, false, [])
  }

  function CreateFooter(footerType: string): (r: Proxy)
    ensures KindOf(r) == FooterKind && Emptied(r) == r
    ensures r.footerType == footerType && !r.isLinkedToPrevious
  {
    Footer(footerType, false, [])
  }

  /** Adding children never changes a content control's type and tag. */
  lemma {:induction false} ContentControlKeepsTypeAndTag(control: Proxy, children: seq<Proxy>)
    requires control.ContentControl?
    ensures AttachAll(control, children).ContentControl?
    ensures AttachAll(control, children).controlType == control.controlType
    ensures AttachAll(control, children).tag == control.tag
    decreases |children|
  {
    if children != [] {
      ContentControlKeepsTypeAndTag(Attached(control, children[0]), children[1..]);
    }
  }
}
