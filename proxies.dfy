/** The proxy tree: a serializable snapshot of an Aspose document, one proxy per node.
    Every proxy class of the visualizer is one constructor of `Proxy`; the composites
    keep their child list, `Add` appends to it (or, for a section, fills a slot) and
    `Accept` sends a visitor through the node: its start callback, each child in order,
    its end callback. */
module Proxies {
  import Sequences
  import opened Wrappers

  /** SectionFormatProxy: orientation and paper size, as the names of Aspose's enum values. */
  datatype SectionFormat = SectionFormat(orientation: string, paperSize: string)

  /** The paragraph formatting the renderer prints. */
  datatype ParagraphFormat = ParagraphFormat(styleIdentifier: string, styleName: string)

  /** The run formatting the renderer prints; language and size are the invariant-culture text
      of their numbers. */
  datatype RunFormat = RunFormat(language: string, styleIdentifier: string, styleName: string, font: string, size: string)

  datatype Proxy =
    | Document(children: seq<Proxy>)                 // DocumentProxy.Sections
    | Section(format: SectionFormat, body: Option<Proxy>, headers: seq<Proxy>, footers: seq<Proxy>)
    | Body(children: seq<Proxy>)
    | Header(headerType: string, isLinkedToPrevious: bool, children: seq<Proxy>)
    | Footer(footerType: string, isLinkedToPrevious: bool, children: seq<Proxy>)
    | Paragraph(paragraphFormat: ParagraphFormat, children: seq<Proxy>)
    | Table(children: seq<Proxy>)                    // TableProxy.Rows
    | Row(children: seq<Proxy>)                      // RowProxy.Cells
    | Cell(children: seq<Proxy>)
    | ContentControl(controlType: string, tag: string, children: seq<Proxy>)
    | Shape(name: string, image: Option<string>, children: seq<Proxy>)
    | GroupShape(name: string, children: seq<Proxy>)
    | Run(text: string, runFormat: RunFormat)
    | BookmarkStart(name: string)
    | BookmarkEnd(name: string)
    | DrawingMl(name: string, image: Option<string>)
    | FieldStart
    | FieldSeparator
    | FieldEnd

  /** The proxy classes, as the run-time type tests of the source see them. */
  datatype Kind =
    | DocumentKind | SectionKind | BodyKind | HeaderKind | FooterKind | ParagraphKind
    | TableKind | RowKind | CellKind | ContentControlKind | ShapeKind | GroupShapeKind
    | RunKind | BookmarkStartKind | BookmarkEndKind | DrawingMlKind
    | FieldStartKind | FieldSeparatorKind | FieldEndKind

  function KindOf(p: Proxy): Kind
  {
    match p
    case Document(_) => DocumentKind
    case Section(_, _, _, _) => SectionKind
    case Body(_) => BodyKind
    case Header(_, _, _) => HeaderKind
    case Footer(_, _, _) => FooterKind
    case Paragraph(_, _) => ParagraphKind
    case Table(_) => TableKind
    case Row(_) => RowKind
    case Cell(_) => CellKind
    case ContentControl(_, _, _) => ContentControlKind
    case Shape(_, _, _) => ShapeKind
    case GroupShape(_, _) => GroupShapeKind
    case Run(_, _) => RunKind
    case BookmarkStart(_) => BookmarkStartKind
    case BookmarkEnd(_) => BookmarkEndKind
    case DrawingMl(_, _) => DrawingMlKind
    case FieldStart => FieldStartKind
    case FieldSeparator => FieldSeparatorKind
    case FieldEnd => FieldEndKind
  }

  /** The classes that implement ICompositeNodeProxy (and so have an `Add`). */
  predicate IsComposite(k: Kind)
  {
    !(k.RunKind? || k.BookmarkStartKind? || k.BookmarkEndKind? || k.DrawingMlKind?
      || k.FieldStartKind? || k.FieldSeparatorKind? || k.FieldEndKind?)
  }

  /** The composites that keep one ordered child list (all but the section). */
  predicate HasChildren(p: Proxy)
  {
    p.Document? || p.Body? || p.Header? || p.Footer? || p.Paragraph? || p.Table?
    || p.Row? || p.Cell? || p.ContentControl? || p.Shape? || p.GroupShape?
  }

  lemma HasChildrenIsListComposite(p: Proxy)
    ensures HasChildren(p) <==> IsComposite(KindOf(p)) && !p.Section?
  {
  }

  /** The same proxy with its child list replaced; other proxies are returned unchanged. */
  function WithChildren(p: Proxy, cs: seq<Proxy>): Proxy
  {
    match p
    case Document(_) => Document(cs)
    case Body(_) => Body(cs)
    case Header(headerType, linked, _) => Header(headerType, linked, cs)
    case Footer(footerType, linked, _) => Footer(footerType, linked, cs)
    case Paragraph(format, _) => Paragraph(format, cs)
    case Table(_) => Table(cs)
    case Row(_) => Row(cs)
    case Cell(_) => Cell(cs)
    case ContentControl(controlType, tag, _) => ContentControl(controlType, tag, cs)
    case Shape(name, image, _) => Shape(name, image, cs)
    case GroupShape(name, _) => GroupShape(name, cs)
    case _ => p
  }

  /** Which child classes a composite's `Add` takes: a document only sections, a section
      a body, a header or a footer, a table only rows, a row only cells, every other
      composite anything. */
  predicate Accepts(parent: Kind, child: Kind)
  {
    match parent
    case DocumentKind => child == SectionKind
    case SectionKind => child == BodyKind || child == HeaderKind || child == FooterKind
    case TableKind => child == RowKind
    case RowKind => child == CellKind
    case _ => IsComposite(parent)
  }

  /** The exceptions `Add` throws: a failed cast in DocumentProxy, TableProxy and RowProxy,
      the InvalidOperationException of SectionProxy. A leaf proxy has no `Add` at all. */
  datatype AddError =
    | InvalidCast(expected: Kind, actual: Kind)
    | NotAllowedInSection(actual: Kind)
    | NotComposite(parent: Kind)

  /** `Add` of every composite proxy class. A list composite appends the child at the end
      and changes nothing else; a section stores a body in its Body slot (replacing an
      earlier one) and appends a header or footer to its list; every other child is
      refused and nothing is stored. */
  function Add(parent: Proxy, child: Proxy): (r: Result<Proxy, AddError>)
    ensures r.Ok? <==> Accepts(KindOf(parent), KindOf(child))
    ensures r.Ok? ==> KindOf(r.value) == KindOf(parent)
    ensures r.Ok? && HasChildren(parent) ==>
      HasChildren(r.value) && r.value.children == parent.children + [child]
      && WithChildren(r.value, []) == WithChildren(parent, [])
    ensures r.Ok? && parent.Section? ==>
      r.value.Section? && r.value.format == parent.format
      && r.value.body == (if child.Body? then Some(child) else parent.body)
      && r.value.headers == (if child.Header? then parent.headers + [child] else parent.headers)
      && r.value.footers == (if child.Footer? then parent.footers + [child] else parent.footers)
    ensures r.Err? && parent.Section? ==> r.error == NotAllowedInSection(KindOf(child))
    ensures r.Err? && (parent.Document? || parent.Table? || parent.Row?) ==> r.error.InvalidCast?
  {
    if parent.Section? then AddToSection(parent, child) else AddToList(parent, child)
  }

  /** SectionProxy's `Add`. */
  function AddToSection(section: Proxy, child: Proxy): (r: Result<Proxy, AddError>)
    requires section.Section?
    ensures r.Ok? <==> Accepts(SectionKind, KindOf(child))
    ensures r.Ok? ==>
      r.value.Section? && r.value.format == section.format
      && r.value.body == (if child.Body? then Some(child) else section.body)
      && r.value.headers == (if child.Header? then section.headers + [child] else section.headers)
      && r.value.footers == (if child.Footer? then section.footers + [child] else section.footers)
    ensures r.Err? ==> r.error == NotAllowedInSection(KindOf(child))
  {
    var Section(format, body, headers, footers) := section;
    if child.Body? then Ok(Section(format, Some(child), headers, footers))
    else if child.Header? then Ok(Section(format, body, headers + [child], footers))
    else if child.Footer? then Ok(Section(format, body, headers, footers + [child]))
    else Err(NotAllowedInSection(KindOf(child)))
  }

  /** `Add` of the proxies with a child list, and the missing `Add` of a leaf. */
  function AddToList(parent: Proxy, child: Proxy): (r: Result<Proxy, AddError>)
    requires !parent.Section?
    ensures r.Ok? <==> Accepts(KindOf(parent), KindOf(child))
    ensures r.Ok? ==>
      HasChildren(parent) && HasChildren(r.value) && KindOf(r.value) == KindOf(parent)
      && r.value.children == parent.children + [child]
      && WithChildren(r.value, []) == WithChildren(parent, [])
    ensures r.Err? && (parent.Document? || parent.Table? || parent.Row?) ==> r.error.InvalidCast?
  {
    if parent.Document? then
      if child.Section? then Ok(Document(parent.children + [child])) else Err(InvalidCast(SectionKind, KindOf(child)))
    else if parent.Table? then
      if child.Row? then Ok(Table(parent.children + [child])) else Err(InvalidCast(RowKind, KindOf(child)))
    else if parent.Row? then
      if child.Cell? then Ok(Row(parent.children + [child])) else Err(InvalidCast(CellKind, KindOf(child)))
    else if HasChildren(parent) then Ok(WithChildren(parent, parent.children + [child]))
    else Err(NotComposite(KindOf(parent)))
  }

  /** Each successful `Add` to a section changes exactly one of Body, Headers and Footers. */
  lemma SectionAddChangesOneSlot(section: Proxy, child: Proxy)
    requires section.Section? && Add(section, child).Ok?
    ensures var s := Add(section, child).value;
      (if s.body != section.body then 1 else 0) + (if s.headers != section.headers then 1 else 0)
      + (if s.footers != section.footers then 1 else 0) <= 1
    ensures var s := Add(section, child).value;
      s.headers != section.headers || s.footers != section.footers || s.body == Some(child)
  {
    var s := Add(section, child).value;
    if child.Header? {
      assert |s.headers| == |section.headers| + 1;
    } else if child.Footer? {
      assert |s.footers| == |section.footers| + 1;
    }
  }

  /** `Add` where the capture has already checked that the parent takes the child. */
  function Attached(parent: Proxy, child: Proxy): Proxy
  {
    match Add(parent, child)
    case Ok(p) => p
    case Err(_) => parent
  }

  /** Adds `children` one after the other. */
  function AttachAll(parent: Proxy, children: seq<Proxy>): Proxy
    decreases |children|
  {
    if children == [] then parent else AttachAll(Attached(parent, children[0]), children[1..])
  }

  lemma WithChildrenFacts(p: Proxy, a: seq<Proxy>, b: seq<Proxy>)
    requires HasChildren(p)
    ensures HasChildren(WithChildren(p, a)) && WithChildren(p, a).children == a
    ensures KindOf(WithChildren(p, a)) == KindOf(p)
    ensures WithChildren(WithChildren(p, a), b) == WithChildren(p, b)
  {
  }

  lemma AttachedAppends(parent: Proxy, child: Proxy)
    requires HasChildren(parent) && Accepts(KindOf(parent), KindOf(child))
    ensures Attached(parent, child) == WithChildren(parent, parent.children + [child])
  {
    match parent
    case Document(_) =>
    case Table(_) =>
    case Row(_) =>
    case _ =>
  }

  /** Adding accepted children one by one to a list composite leaves them, in the order
      they were added, after the children it already had. */
  lemma {:induction false} AttachAllAppends(parent: Proxy, children: seq<Proxy>)
    requires HasChildren(parent)
    requires forall c | c in children :: Accepts(KindOf(parent), KindOf(c))
    ensures AttachAll(parent, children) == WithChildren(parent, parent.children + children)
    decreases |children|
  {
    if children == [] {
      assert parent.children + children == parent.children;
      assert WithChildren(parent, parent.children) == parent;
    } else {
      var first, rest := children[0], children[1..];
      assert first in children;
      var next := Attached(parent, first);
      AttachedKeepsShape(parent, first, parent.children + children);
      assert forall c | c in rest :: c in children;
      AttachAllAppends(next, rest);
      Sequences.SplitFirst(parent.children, children);
    }
  }

  lemma AttachedKeepsShape(parent: Proxy, first: Proxy, cs: seq<Proxy>)
    requires HasChildren(parent) && Accepts(KindOf(parent), KindOf(first))
    ensures HasChildren(Attached(parent, first))
    ensures Attached(parent, first).children == parent.children + [first]
    ensures KindOf(Attached(parent, first)) == KindOf(parent)
    ensures WithChildren(Attached(parent, first), cs) == WithChildren(parent, cs)
  {
    AttachedAppends(parent, first);
    WithChildrenFacts(parent, parent.children + [first], cs);
  }

  /** Every proxy a composite holds: a section's Body, headers and footers, or the child list. */
  function Kids(p: Proxy): (r: seq<Proxy>)
    ensures forall c | c in r :: c < p
  {
    if p.Section? then (if p.body.Some? then [p.body.value] else []) + p.headers + p.footers
    else if HasChildren(p) then p.children
    else []
  }

  /** `x` is `tree` itself or held somewhere below it. */
  predicate Holds(tree: Proxy, x: Proxy)
    decreases tree
  {
    tree == x || exists c | c in Kids(tree) :: Holds(c, x)
  }

  /** A child that `Add` takes is held by the parent afterwards, with everything below it. */
  lemma HoldsAttached(parent: Proxy, child: Proxy, x: Proxy)
    requires Accepts(KindOf(parent), KindOf(child)) && Holds(child, x)
    ensures Holds(Attached(parent, child), x)
  {
    var a := Attached(parent, child);
    if parent.Section? {
      if child.Body? {
        assert Kids(a) == [child] + a.headers + a.footers;
      } else if child.Header? {
        assert child in a.headers;
      } else {
        assert child in a.footers;
      }
    } else {
      HasChildrenIsListComposite(parent);
      AttachedAppends(parent, child);
      assert a.children[|parent.children|] == child;
    }
    assert child in Kids(a);
  }

  /** A proxy without the children that `Accept` walks through: what the factory creates
      before the capture fills it. */
  function Emptied(p: Proxy): (r: Proxy)
    ensures KindOf(r) == KindOf(p)
    ensures HasChildren(p) ==> r.children == []
    ensures p.Section? ==> r.Section? && r.body.None? && r.headers == [] && r.footers == []
  {
    if p.Section? then Section(p.format, None, [], [])
    else if HasChildren(p) then WithChildren(p, [])
    else p
  }

  /** The callbacks a `NodeVisitor` receives: the start and the end of a composite, or
      the single callback of a leaf. Each carries the proxy it is about. */
  datatype Visit = Enter(node: Proxy) | Exit(node: Proxy) | Leaf(node: Proxy)

  /** `Accept` dereferences the Body of every section it reaches. */
  predicate Visitable(p: Proxy)
  {
    if p.Section? then p.body.Some? && Visitable(p.body.value)
    else if HasChildren(p) then forall c | c in p.children :: Visitable(c)
    else true
  }

  /** The children `Accept` walks through: a section only its Body (never its headers
      or footers), every other composite its child list. */
  function Visited(p: Proxy): (r: seq<Proxy>)
    requires Visitable(p)
    ensures forall c | c in r :: Visitable(c)
    ensures !IsComposite(KindOf(p)) ==> r == []
  {
    if p.Section? then [p.body.value]
    else if HasChildren(p) then p.children
    else []
  }

  /** The callbacks `Accept` makes on a visitor, in order. */
  function Accept(p: Proxy): seq<Visit>
    requires Visitable(p)
    decreases p, 1
  {
    if p.Section? then [Enter(p)] + Accept(p.body.value) + [Exit(p)]
    else if HasChildren(p) then [Enter(p)] + AcceptAll(p.children) + [Exit(p)]
    else [Leaf(p)]
  }

  /** The callbacks of accepting each proxy of `ps` in turn. */
  function AcceptAll(ps: seq<Proxy>): seq<Visit>
    requires forall c | c in ps :: Visitable(c)
    decreases ps, 0
  {
    if ps == [] then [] else Accept(ps[0]) + AcceptAll(ps[1..])
  }

  /** A composite's `Accept` is its start callback, its visited children accepted in
      order, and its end callback; a leaf's is its one callback. */
  lemma AcceptShape(p: Proxy)
    requires Visitable(p)
    ensures IsComposite(KindOf(p)) ==> Accept(p) == [Enter(p)] + AcceptAll(Visited(p)) + [Exit(p)]
    ensures !IsComposite(KindOf(p)) ==> Accept(p) == [Leaf(p)]
  {
    if p.Section? {
      assert AcceptAll([p.body.value]) == Accept(p.body.value) + AcceptAll([]);
    }
  }

  lemma {:induction false} AcceptAllDistributes(a: seq<Proxy>, b: seq<Proxy>)
    requires forall c | c in a + b :: Visitable(c)
    ensures AcceptAll(a + b) == AcceptAll(a) + AcceptAll(b)
  {
    if a == [] {
      assert a + b == b;
    } else {
      Sequences.ConcatTail(a, b);
      AcceptAllDistributes(a[1..], b);
    }
  }

  /** Replays visits against a stack of open proxies: a start pushes its proxy, an end must
      name the proxy on top and pops it. None when an end does not match. */
  function Unwind(vs: seq<Visit>, open: seq<Proxy>): Option<seq<Proxy>>
  {
    if vs == [] then Some(open)
    else match vs[0]
      case Enter(p) => Unwind(vs[1..], open + [p])
      case Exit(p) =>
        if open != [] && open[|open| - 1] == p then Unwind(vs[1..], open[..|open| - 1]) else None
      case Leaf(_) => Unwind(vs[1..], open)
  }

  /** Every start callback is closed by the end callback of the same proxy, properly nested. */
  predicate WellNested(vs: seq<Visit>)
  {
    Unwind(vs, []) == Some([])
  }

  /** `Accept` is well nested: replaying it leaves the stack of open proxies as it found it. */
  lemma {:induction false} AcceptUnwinds(p: Proxy, rest: seq<Visit>, open: seq<Proxy>)
    requires Visitable(p)
    ensures Unwind(Accept(p) + rest, open) == Unwind(rest, open)
    decreases p, 1
  {
    if p.Section? {
      var inner := Accept(p.body.value);
      assert Accept(p) + rest == [Enter(p)] + (inner + ([Exit(p)] + rest));
      AcceptUnwinds(p.body.value, [Exit(p)] + rest, open + [p]);
      assert (open + [p])[..|open + [p]| - 1] == open;
    } else if HasChildren(p) {
      var inner := AcceptAll(p.children);
      assert Accept(p) + rest == [Enter(p)] + (inner + ([Exit(p)] + rest));
      AcceptAllUnwinds(p.children, [Exit(p)] + rest, open + [p]);
      assert (open + [p])[..|open + [p]| - 1] == open;
    } else {
      assert Accept(p) + rest == [Leaf(p)] + rest;
    }
  }

  lemma {:induction false} AcceptAllUnwinds(ps: seq<Proxy>, rest: seq<Visit>, open: seq<Proxy>)
    requires forall c | c in ps :: Visitable(c)
    ensures Unwind(AcceptAll(ps) + rest, open) == Unwind(rest, open)
    decreases ps, 0
  {
    if ps != [] {
      var tail := AcceptAll(ps[1..]) + rest;
      assert AcceptAll(ps) + rest == Accept(ps[0]) + tail;
      AcceptUnwinds(ps[0], tail, open);
      AcceptAllUnwinds(ps[1..], rest, open);
      assert Unwind(tail, open) == Unwind(rest, open);
    } else {
      assert AcceptAll(ps) + rest == rest;
    }
  }

  lemma AcceptWellNested(p: Proxy)
    requires Visitable(p)
    ensures WellNested(Accept(p))
  {
    AcceptUnwinds(p, [], []);
    assert Accept(p) + [] == Accept(p);
  }
}
